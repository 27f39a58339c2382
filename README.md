# Resilience layer of the e-commerce UI test framework, in Dafny

The framework drives a browser through Selenium page objects. Under the
page objects sit three small pieces of logic, and this project models them:

- **The bounded-retry executor** (`ActionUtils`, module `ActionUtils`). Every
  page action runs its closure up to three times. It returns the first result,
  and writes exactly one terminal record pair: an info line and an Allure
  step, or an error line and an Allure step. After the third caught
  `Exception` it throws `RuntimeException(errorMsg, lastException)`. The closure is an
  oracle `exec: nat -> Outcome<T>`, where `exec(n)` says how the n-th
  invocation completes. `ExecuteWithRetry` is the `while (true)` loop itself,
  proved against the recursive specification `RetryFrom`/`Retry`. The lemmas
  state the success, exhaustion, uncaught-`Error` and one-terminal-record
  properties over every oracle.
- **The per-thread driver holder** (`Driver`, module `Drivers`). The
  `ThreadLocal<WebDriver>` is a `map<ContextId, Session>` field of class
  `Driver`. A context with no entry is a thread whose slot holds null. Session
  creation, the three configuration commands and `quit` belong to the
  browser, so they are inputs: the outcome of creation and the fault, if any,
  of each command. Every command sent is appended to `calls`, and every log
  line to `log`. The methods `Init`, `QuitDriver`, `ConfigureDriver` and
  `GetDriver` follow the Java statements in order. Each is proved equal to a
  transition function on the value `Registry` (`InitStep`, `QuitStep`,
  `Apply`, `Current`), and the lemmas about those functions state the
  ordering facts. The session is registered before configuration. Re-`init`
  overwrites without quitting. A failed `quit` keeps the slot. A quit with
  no session does nothing.
- **The browser-type converter** (`BrowserTypeConverter`, module
  `BrowserTypes`). The converter upper-cases the string and looks it up
  exactly among the five `BrowserType` names. Nothing is trimmed.
- **Nested retries** (module `Pages`). `clickWaitForTitleAndNavigate` retries
  a closure that calls `click` and `waitForPageTitle`, and each of those
  retries its own body. `Pages` builds this from `Retry` and proves that one
  navigation runs the click body at most 3 × 3 = 9 times.

`Effects` holds what the modules share: Java's `Throwable`, where only
`Error` escapes `catch (Exception e)`; the `Outcome` of a call; and the
`Record`s written to Log4j and Allure.

Notes on the code's behaviour:
- The retry count is the constant 3 (`MaxAttempts`), not a policy parameter.
- `getDriver` with no session returns null (`None`). It does not fail.
- `init` registers the session before it configures the session and navigates. So a
  configuration or navigation failure leaves the new session registered.
  Creation failures are wrapped by `init` as "Failed to initialize WebDriver".
- A non-`Exception` `Throwable` is neither retried nor recorded, by the
  executor and by `init`/`quitDriver` alike.

## Model

| member | source | states |
|---|---|---|
| ActionUtils.RetryFrom | src/main/java/com/evy/framework/utils/ActionUtils.java:76-90 | every iteration returns, throws or counts one more caught attempt, so the loop ends after at least one and at most 3 invocations of the closure |
| ActionUtils.ExecuteWithRetry | src/main/java/com/evy/framework/utils/ActionUtils.java:72-92 | the `while (true)` loop with its `attempts` counter yields exactly the result, invocation count and records of `Retry` |
| ActionUtils.ExecVoidFunction | src/main/java/com/evy/framework/utils/ActionUtils.java:28-33 | retrying the runnable inside a null-returning supplier behaves exactly like retrying the runnable: same completion, same invocations, same records |
| ActionUtils.NullReturningRun | src/main/java/com/evy/framework/utils/ActionUtils.java:29-32 | the null-returning supplier yields null on every success and changes nothing else of the run |
| ActionUtils.ExecStringFunction | src/main/java/com/evy/framework/utils/ActionUtils.java:44-46 | the string (possibly null) is the executor's result, after 1 to 3 invocations |
| ActionUtils.ExecBooleanFunction | src/main/java/com/evy/framework/utils/ActionUtils.java:57-59 | the answer is true exactly when the successful result is `TRUE` (null and false give false); failures pass through unchanged |
| ActionUtils.RetrySucceedsAt | src/main/java/com/evy/framework/utils/ActionUtils.java:76-84 | if attempts 1..k-1 throw Exceptions and attempt k <= 3 returns v, the call returns v after exactly k invocations with only the success records |
| ActionUtils.RetryExhausted | src/main/java/com/evy/framework/utils/ActionUtils.java:82-87 | three caught Exceptions give `RuntimeException(errorMsg, third exception)`, exactly 3 invocations and only the failure records |
| ActionUtils.RetryErrorPropagates | src/main/java/com/evy/framework/utils/ActionUtils.java:82 | a non-Exception Throwable leaves from the attempt that raised it, unwrapped, with no further attempt and no record |
| ActionUtils.RetryTerminal | src/main/java/com/evy/framework/utils/ActionUtils.java:76-90 | for every closure: every attempt before the last was a caught Exception, and the call ends in exactly one of success (success records), exhaustion after 3 (failure records) or an uncaught Error (no records) |
| ActionUtils.StaleTwiceThenOk | src/main/java/com/evy/framework/utils/ActionUtils.java:76-87 | two Exceptions then "OK" give "OK" after 3 invocations with one success record pair |
| BrowserTypes.ValueOf | src/main/java/com/evy/framework/constants/BrowserType.java:9-36 | `valueOf` returns the constant with exactly that name, and throws IllegalArgumentException when no constant has it |
| BrowserTypes.ToUpper | src/main/java/com/evy/framework/config/BrowserTypeConverter.java:19 | upper-casing keeps the length and upper-cases each character on its own |
| BrowserTypes.Convert | src/main/java/com/evy/framework/config/BrowserTypeConverter.java:18-19 | succeeds exactly when the upper-cased string is a constant's name and returns that constant; otherwise throws the no-enum-constant exception for the upper-cased string |
| BrowserTypes.NameIsUpperCase | src/main/java/com/evy/framework/constants/BrowserType.java:14-34 | the five constant names are upper case |
| BrowserTypes.ConvertRoundTrip | src/main/java/com/evy/framework/config/BrowserTypeConverter.java:19 | every constant's name, upper or lower case, converts back to that constant |
| BrowserTypes.ConvertAnyCase | src/main/java/com/evy/framework/config/BrowserTypeConverter.java:19 | a string converts to b if and only if it spells b's name in any mix of letter cases |
| BrowserTypes.ConvertCaseInsensitive | src/main/java/com/evy/framework/config/BrowserTypeConverter.java:18-19 | the result depends only on the upper-cased string; the `Method` argument is ignored |
| BrowserTypes.ConvertRejectsEmptyAndPadded | src/main/java/com/evy/framework/config/BrowserTypeConverter.java:19 | the empty string and a name with a leading or trailing space are rejected, as nothing is trimmed |
| Drivers.Apply | src/main/java/com/evy/framework/drivers/Driver.java:92-96 | the commands sent are a prefix of the list; all are sent exactly when none throws; otherwise the sequence stops at the first command that throws |
| Drivers.Driver.constructor | src/main/java/com/evy/framework/drivers/Driver.java:19 | a new holder has no session in any context and has sent and logged nothing |
| Drivers.Driver.Init | src/main/java/com/evy/framework/drivers/Driver.java:43-53 | the new slots, commands, log and completion are those of `InitStep` on the old state |
| Drivers.Driver.InitFailed | src/main/java/com/evy/framework/drivers/Driver.java:49-52 | an Exception is logged and rethrown as "Failed to initialize WebDriver"; an Error passes unlogged |
| Drivers.Driver.ConfigureDriver | src/main/java/com/evy/framework/drivers/Driver.java:92-96 | page-load timeout, implicit wait and navigation are sent in that order up to the first that throws, which is returned |
| Drivers.Driver.QuitDriver | src/main/java/com/evy/framework/drivers/Driver.java:61-73 | the new slots, commands, log and completion are those of `QuitStep` on the old state |
| Drivers.Driver.GetDriver | src/main/java/com/evy/framework/drivers/Driver.java:80-82 | returns the session of the calling context, or null when it holds none |
| Drivers.InitThenGet | src/main/java/com/evy/framework/drivers/Driver.java:44-48 | `init` succeeds exactly when creation and all three configuration commands succeed, and then `getDriver` returns the new session |
| Drivers.InitOrder | src/main/java/com/evy/framework/drivers/Driver.java:45-48 | a successful `init` sends create, page-load timeout, implicit wait and navigation to the URL, in that order, and logs one info line |
| Drivers.InitCreateFails | src/main/java/com/evy/framework/drivers/Driver.java:45-51 | a failed creation leaves every slot as it was and throws "Failed to initialize WebDriver" |
| Drivers.InitConfigureFails | src/main/java/com/evy/framework/drivers/Driver.java:46-51 | a configuration failure leaves the new session registered and not quit, and throws "Failed to initialize WebDriver" |
| Drivers.ReinitDoesNotQuit | src/main/java/com/evy/framework/drivers/Driver.java:45-47 | `init` on a context that holds a session sends no quit and overwrites the slot with the new session |
| Drivers.QuitWithoutSession | src/main/java/com/evy/framework/drivers/Driver.java:63-64 | `quitDriver` with an empty slot changes nothing and does not throw |
| Drivers.QuitRemoves | src/main/java/com/evy/framework/drivers/Driver.java:64-67 | `quitDriver` sends quit to the session and clears the slot, so `getDriver` then gives null |
| Drivers.QuitFailureKeepsSession | src/main/java/com/evy/framework/drivers/Driver.java:65-71 | when quit throws, the slot is kept and the exception is rethrown as "Error quitting WebDriver" |
| Drivers.OtherContextsUntouched | src/main/java/com/evy/framework/drivers/Driver.java:19 | `init` and `quitDriver` in one context never change another context's slot |
| Drivers.SetUpTearDown | src/test/java/com/evy/tests/BaseTest.java:11-19 | a successful set-up and tear-down quits the new session and leaves the contexts as before, minus the test's own |
| Drivers.TwoContexts | src/main/java/com/evy/framework/drivers/Driver.java:19 | two contexts initialised in turn each see their own session, and quitting one leaves the other's |
| Pages.BeforeBounds | src/main/java/com/evy/framework/pages/BasePage.java:125-130 | each navigation attempt runs the click body at least once and at most 3 times, and the title-wait body at most 3 times |
| Pages.NavigateBounded | src/main/java/com/evy/framework/pages/BasePage.java:125-130 | one `clickWaitForTitleAndNavigate` makes 1 to 3 attempts and runs the click body at most 9 times (the title-wait body too) |

## Left out

- The element waiter `waitForElementToBeVisible` is left out. It only configures Selenium's `FluentWait`, and the polling, the ignored exceptions and the timing all happen inside that library. It also runs on wall-clock time.
- The page objects, `DriverFactory`, `DriverSupplier`, `ConfigManager`/`FrameworkConfig`, the TestNG tests and the data providers are left out. They are glue to Selenium, WebDriverManager, the owner library, TestNG and Faker. Session creation is the `created` input of `Init`. The configuration is the `FrameworkConfig` input.
- `clickWaitForElementAndNavigate` is not modelled. Its closure calls `click`, which retries its own body, and then `waitForElementToBeVisible`, which is a single `FluentWait` call with no retry around it. Only the `click` nesting matches `clickWaitForTitleAndNavigate`; the element wait is outside the model, as described above.
- Log4j and Allure appear only as appended `Record`s. A logger or a report step that throws is not modelled. The `Class<?>` logger key is a string.
- Threads are not modelled. `ThreadLocal` is a map keyed by an explicit context id, and each operation names its context.
- `Driver.getInstance` is not modelled: the singleton is one `Driver` object.
- BrowserTypes.ToUpper: only ASCII letters are upper-cased. Java's locale-sensitive `toUpperCase` maps more characters. For example, dotless 'ı' becomes 'I', so Java accepts "fırefox" and "safarı" as FIREFOX and SAFARI while the model rejects them; and 'ß' becomes "SS", which changes the length.
- BrowserTypes.ConvertRoundTrip: the lower-case half holds only when the default locale is not Turkish or Azerbaijani. Under those locales Java upper-cases ASCII 'i' to 'İ', so "firefox" and "safari" are rejected; the model uses the locale-independent ASCII mapping.
- BrowserTypes.ConvertAnyCase: holds only outside the Turkish and Azerbaijani default locales, for the same reason: there a lower-case 'i' in "firefox", "safari" or any mixed-case spelling does not upper-case to 'I'.
- BrowserTypes.Convert: a null string, which makes Java throw a NullPointerException, is not modelled. Strings here are never null.
- A closure's behaviour depends only on how many times it has been invoked (`exec(n)`). Browser commands fail according to a fixed `fault` function of the command. State hidden in the browser beyond that is not modelled.
- The `isVoid` parameter of `executeWithRetry` is carried but unused, as in the code.

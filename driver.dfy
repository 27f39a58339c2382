/** The per-thread WebDriver holder.

    The `ThreadLocal<WebDriver>` becomes a map from an explicit context id to
    the session registered for it; a context with no entry is a thread whose
    slot holds null. The browser itself is an outside capability: creating a
    session, each configuration command and `quit` are given as outcomes or
    faults, and every command the holder sends is kept, in order, in `calls`. */
module Drivers {
  import opened Effects
  import opened BrowserTypes

  /** The identity of a thread (one parallel test). */
  type ContextId = nat

  /** A live WebDriver, by identity. */
  datatype Session = Session(handle: nat)

  /** The settings `configureDriver` reads from the configuration. */
  datatype FrameworkConfig = FrameworkConfig(pageLoadTime: int, implicitTime: int, url: string)

  /** One configuration command sent to a new session. */
  datatype Setting = PageLoadTimeout(seconds: int) | ImplicitWait(seconds: int) | Navigate(url: string)

  /** A command sent to the browser capability. */
  datatype Call = Create(browser: BrowserType) | Configure(session: Session, setting: Setting) | Quit(session: Session)

  /** The logger name of the holder's own records. */
  const DriverClass := "com.evy.framework.drivers.Driver"

  /** The commands of `configureDriver`, in the order it sends them. */
  function Settings(cfg: FrameworkConfig): seq<Setting> {
    [PageLoadTimeout(cfg.pageLoadTime), ImplicitWait(cfg.implicitTime), Navigate(cfg.url)]
  }

  /** Sending a list of commands that stops at the first one that throws. */
  datatype Applied = Applied(sent: seq<Setting>, failure: Option<Throwable>)

  /** The commands actually sent when `fault` says which of them throw, and
      the throwable that ended the sequence, if any. */
  function Apply(settings: seq<Setting>, fault: Setting -> Option<Throwable>): (a: Applied)
    ensures a.sent <= settings
    ensures a.failure.None? <==> a.sent == settings && forall i :: 0 <= i < |settings| ==> fault(settings[i]).None?
    ensures a.failure.Some? ==>
              a.sent != [] && a.failure == fault(a.sent[|a.sent| - 1]) &&
              forall i :: 0 <= i < |a.sent| - 1 ==> fault(a.sent[i]).None?
  {
    if settings == [] then Applied([], None)
    else if fault(settings[0]).Some? then Applied([settings[0]], fault(settings[0]))
    else
      var rest := Apply(settings[1..], fault);
      assert forall i :: 1 <= i < |settings| ==> settings[i] == settings[1..][i - 1];
      Applied([settings[0]] + rest.sent, rest.failure)
  }

  /** The calls that send `sent` to session `d`. */
  function ConfigureCalls(d: Session, sent: seq<Setting>): seq<Call> {
    seq(|sent|, i requires 0 <= i < |sent| => Configure(d, sent[i]))
  }

  /** The whole observable state: the slots, the browser commands sent so far
      and the log written so far. */
  datatype Registry = Registry(slots: map<ContextId, Session>, calls: seq<Call>, log: seq<Record>)

  /** The state after an operation, and how the operation completed. */
  datatype Transition = Transition(next: Registry, result: Outcome<()>)

  /** `getDriver`: the session of `ctx`, or null. */
  function Current(st: Registry, ctx: ContextId): Option<Session> {
    if ctx in st.slots then Some(st.slots[ctx]) else None
  }

  /** The `catch (Exception e)` of `init`: an Exception is logged and rethrown
      wrapped; anything else leaves unlogged and unwrapped. */
  function InitFailure(st: Registry, browserType: BrowserType, t: Throwable): Transition {
    if IsException(t) then
      Transition(st.(log := st.log + [LogError(DriverClass, "Failed to initialize WebDriver for browser: " + Name(browserType), t)]),
                 Throws(RuntimeException("Failed to initialize WebDriver", t)))
    else
      Transition(st, Throws(t))
  }

  /** `init` in context `ctx`: create a session, register it, configure it,
      log. `created` is what session creation gave. */
  function InitStep(st: Registry, ctx: ContextId, browserType: BrowserType, cfg: FrameworkConfig,
                    created: Outcome<Session>, fault: Setting -> Option<Throwable>): Transition
  {
    var st1 := st.(calls := st.calls + [Create(browserType)]);
    match created
    case Throws(t) => InitFailure(st1, browserType, t)
    case Returns(d) =>
      var a := Apply(Settings(cfg), fault);
      var st2 := st1.(slots := st1.slots[ctx := d], calls := st1.calls + ConfigureCalls(d, a.sent));
      match a.failure
      case Some(t) => InitFailure(st2, browserType, t)
      case None =>
        Transition(st2.(log := st2.log + [LogInfo(DriverClass, "WebDriver initialized for browser: " + Name(browserType))]),
                   Returns(()))
  }

  /** `quitDriver` in context `ctx`; `quitFault` is what `quit` threw, if it threw. */
  function QuitStep(st: Registry, ctx: ContextId, quitFault: Option<Throwable>): Transition {
    if ctx !in st.slots then Transition(st, Returns(()))
    else
      var st1 := st.(calls := st.calls + [Quit(st.slots[ctx])]);
      match quitFault
      case None =>
        Transition(st1.(slots := st1.slots - {ctx},
                        log := st1.log + [LogInfo(DriverClass, "WebDriver quit and removed from thread.")]),
                   Returns(()))
      case Some(t) =>
        if IsException(t) then
          Transition(st1.(log := st1.log + [LogError(DriverClass, "Error quitting WebDriver", t)]),
                     Throws(RuntimeException("Error quitting WebDriver", t)))
        else
          Transition(st1, Throws(t))
  }

  /** The holder itself: one slot per context. */
  class Driver {
    var slots: map<ContextId, Session>
    var calls: seq<Call>
    var log: seq<Record>

    function State(): Registry
      reads this
    {
      Registry(slots, calls, log)
    }

    constructor ()
      ensures State() == Registry(map[], [], [])
    {
      slots := map[];
      calls := [];
      log := [];
    }

    /** `init(browserType)` called from context `ctx`. */
    method Init(ctx: ContextId, browserType: BrowserType, cfg: FrameworkConfig,
                created: Outcome<Session>, fault: Setting -> Option<Throwable>)
      returns (r: Outcome<()>)
      modifies this
      ensures State() == InitStep(old(State()), ctx, browserType, cfg, created, fault).next
      ensures r == InitStep(old(State()), ctx, browserType, cfg, created, fault).result
    {
      calls := calls + [Create(browserType)];
      match created {
        case Throws(t) =>
          r := InitFailed(browserType, t);
        case Returns(d) =>
          slots := slots[ctx := d];
          var failure := ConfigureDriver(d, cfg, fault);
          if failure.Some? {
            r := InitFailed(browserType, failure.value);
            return;
          }
          log := log + [LogInfo(DriverClass, "WebDriver initialized for browser: " + Name(browserType))];
          r := Returns(());
      }
    }

    /** The catch block of `init`. */
    method InitFailed(browserType: BrowserType, t: Throwable) returns (r: Outcome<()>)
      modifies this`log
      ensures Transition(State(), r) == InitFailure(old(State()), browserType, t)
    {
      if IsException(t) {
        log := log + [LogError(DriverClass, "Failed to initialize WebDriver for browser: " + Name(browserType), t)];
        r := Throws(RuntimeException("Failed to initialize WebDriver", t));
      } else {
        r := Throws(t);
      }
    }

    /** `configureDriver`: page-load timeout, implicit wait, then navigation;
        the first command that throws ends it. */
    method ConfigureDriver(d: Session, cfg: FrameworkConfig, fault: Setting -> Option<Throwable>)
      returns (failure: Option<Throwable>)
      modifies this`calls
      ensures calls == old(calls) + ConfigureCalls(d, Apply(Settings(cfg), fault).sent)
      ensures failure == Apply(Settings(cfg), fault).failure
    {
      var s := Settings(cfg);
      assert s[1..][1..] == [s[2]];
      calls := calls + [Configure(d, PageLoadTimeout(cfg.pageLoadTime))];
      failure := fault(PageLoadTimeout(cfg.pageLoadTime));
      if failure.Some? {
        return;
      }
      calls := calls + [Configure(d, ImplicitWait(cfg.implicitTime))];
      failure := fault(ImplicitWait(cfg.implicitTime));
      if failure.Some? {
        return;
      }
      calls := calls + [Configure(d, Navigate(cfg.url))];
      failure := fault(Navigate(cfg.url));
    }

    /** `quitDriver()` called from context `ctx`. */
    method QuitDriver(ctx: ContextId, quitFault: Option<Throwable>) returns (r: Outcome<()>)
      modifies this
      ensures State() == QuitStep(old(State()), ctx, quitFault).next
      ensures r == QuitStep(old(State()), ctx, quitFault).result
    {
      r := Returns(());
      if ctx in slots {
        var d := slots[ctx];
        calls := calls + [Quit(d)];
        match quitFault {
          case Some(t) =>
            if IsException(t) {
              log := log + [LogError(DriverClass, "Error quitting WebDriver", t)];
              r := Throws(RuntimeException("Error quitting WebDriver", t));
            } else {
              r := Throws(t);
            }
          case None =>
            slots := slots - {ctx};
            log := log + [LogInfo(DriverClass, "WebDriver quit and removed from thread.")];
        }
      }
    }

    /** `getDriver()` called from context `ctx`. */
    method GetDriver(ctx: ContextId) returns (d: Option<Session>)
      ensures d == Current(State(), ctx)
    {
      d := if ctx in slots then Some(slots[ctx]) else None;
    }
  }

  /** `init` succeeds exactly when the session is created and every
      configuration command goes through; then `getDriver` in the same context
      returns the new session. */
  lemma InitThenGet(st: Registry, ctx: ContextId, browserType: BrowserType, cfg: FrameworkConfig,
                    created: Outcome<Session>, fault: Setting -> Option<Throwable>)
    ensures var t := InitStep(st, ctx, browserType, cfg, created, fault);
      (t.result.Returns? <==> created.Returns? && forall s :: s in Settings(cfg) ==> fault(s).None?) &&
      (t.result.Returns? ==> Current(t.next, ctx) == Some(created.value))
  {
  }

  /** A successful `init` sends exactly: create, page-load timeout, implicit
      wait, navigation to the configured URL, and logs one info line. */
  lemma InitOrder(st: Registry, ctx: ContextId, browserType: BrowserType, cfg: FrameworkConfig,
                  created: Outcome<Session>, fault: Setting -> Option<Throwable>)
    requires InitStep(st, ctx, browserType, cfg, created, fault).result.Returns?
    ensures var d := created.value;
      InitStep(st, ctx, browserType, cfg, created, fault).next
        == Registry(st.slots[ctx := d],
                    st.calls + [Create(browserType), Configure(d, PageLoadTimeout(cfg.pageLoadTime)),
                                Configure(d, ImplicitWait(cfg.implicitTime)), Configure(d, Navigate(cfg.url))],
                    st.log + [LogInfo(DriverClass, "WebDriver initialized for browser: " + Name(browserType))])
  {
  }

  /** A failed session creation leaves every slot as it was (the previous
      session of `ctx` included) and throws "Failed to initialize WebDriver". */
  lemma InitCreateFails(st: Registry, ctx: ContextId, browserType: BrowserType, cfg: FrameworkConfig,
                        t: Throwable, fault: Setting -> Option<Throwable>)
    requires IsException(t)
    ensures var tr := InitStep(st, ctx, browserType, cfg, Throws(t), fault);
      tr.next.slots == st.slots &&
      tr.result == Throws(RuntimeException("Failed to initialize WebDriver", t))
  {
  }

  /** A configuration or navigation failure after creation leaves the new
      session registered (and not quit), and throws "Failed to initialize WebDriver". */
  lemma InitConfigureFails(st: Registry, ctx: ContextId, browserType: BrowserType, cfg: FrameworkConfig,
                           d: Session, fault: Setting -> Option<Throwable>)
    requires Apply(Settings(cfg), fault).failure.Some?
    requires IsException(Apply(Settings(cfg), fault).failure.value)
    ensures var tr := InitStep(st, ctx, browserType, cfg, Returns(d), fault);
      Current(tr.next, ctx) == Some(d) && Quit(d) !in tr.next.calls[|st.calls|..] &&
      tr.result == Throws(RuntimeException("Failed to initialize WebDriver", Apply(Settings(cfg), fault).failure.value))
  {
  }

  /** `init` on a context that holds a session replaces it without quitting it:
      no `quit` command is sent, whatever happens. */
  lemma ReinitDoesNotQuit(st: Registry, ctx: ContextId, browserType: BrowserType, cfg: FrameworkConfig,
                          created: Outcome<Session>, fault: Setting -> Option<Throwable>)
    requires ctx in st.slots
    ensures var tr := InitStep(st, ctx, browserType, cfg, created, fault);
      tr.next.calls[..|st.calls|] == st.calls &&
      (forall c :: c in tr.next.calls[|st.calls|..] ==> !c.Quit?) &&
      (created.Returns? ==> tr.next.slots[ctx] == created.value)
  {
  }

  /** `quitDriver` with no session registered does nothing: no command, no
      record, no exception. */
  lemma QuitWithoutSession(st: Registry, ctx: ContextId, quitFault: Option<Throwable>)
    requires Current(st, ctx).None?
    ensures QuitStep(st, ctx, quitFault) == Transition(st, Returns(()))
  {
  }

  /** `quitDriver` on a registered session sends `quit` to it; when that goes
      through the slot is cleared, so `getDriver` then gives null. */
  lemma QuitRemoves(st: Registry, ctx: ContextId)
    requires Current(st, ctx).Some?
    ensures var tr := QuitStep(st, ctx, None);
      tr.result == Returns(()) && Current(tr.next, ctx) == None &&
      tr.next.slots == st.slots - {ctx} && tr.next.calls == st.calls + [Quit(st.slots[ctx])]
  {
  }

  /** When `quit` throws an Exception the slot is kept and the exception is
      rethrown wrapped as "Error quitting WebDriver". */
  lemma QuitFailureKeepsSession(st: Registry, ctx: ContextId, t: Throwable)
    requires Current(st, ctx).Some? && IsException(t)
    ensures var tr := QuitStep(st, ctx, Some(t));
      tr.next.slots == st.slots && Current(tr.next, ctx) == Current(st, ctx) &&
      tr.result == Throws(RuntimeException("Error quitting WebDriver", t))
  {
  }

  /** Operations in one context never change the slot of another. */
  lemma OtherContextsUntouched(st: Registry, ctx: ContextId, other: ContextId, browserType: BrowserType,
                               cfg: FrameworkConfig, created: Outcome<Session>, fault: Setting -> Option<Throwable>,
                               quitFault: Option<Throwable>)
    requires other != ctx
    ensures Current(InitStep(st, ctx, browserType, cfg, created, fault).next, other) == Current(st, other)
    ensures Current(QuitStep(st, ctx, quitFault).next, other) == Current(st, other)
  {
  }

  /** A test's set-up and tear-down in a context: after a successful `init` and
      a successful `quitDriver` the context holds nothing, every other context
      holds what it held before, and the new session was quit. */
  lemma SetUpTearDown(st: Registry, ctx: ContextId, browserType: BrowserType, cfg: FrameworkConfig,
                      created: Outcome<Session>, fault: Setting -> Option<Throwable>)
    requires InitStep(st, ctx, browserType, cfg, created, fault).result.Returns?
    ensures var mid := InitStep(st, ctx, browserType, cfg, created, fault).next;
      var end := QuitStep(mid, ctx, None);
      end.result == Returns(()) && end.next.slots == st.slots - {ctx} &&
      end.next.calls[|end.next.calls| - 1] == Quit(created.value)
  {
  }

  /** Two contexts initialised one after the other each see their own
      session, and quitting the first leaves the second's in place. */
  lemma TwoContexts(st: Registry, a: ContextId, b: ContextId, browserType: BrowserType, cfg: FrameworkConfig,
                    da: Session, db: Session, fault: Setting -> Option<Throwable>)
    requires a != b
    requires InitStep(st, a, browserType, cfg, Returns(da), fault).result.Returns?
    ensures var s1 := InitStep(st, a, browserType, cfg, Returns(da), fault).next;
      var s2 := InitStep(s1, b, browserType, cfg, Returns(db), fault).next;
      Current(s2, a) == Some(da) && Current(s2, b) == Some(db) &&
      Current(QuitStep(s2, a, None).next, b) == Some(db)
  {
  }
}

/** Java's throwables, the outcome of calling a closure or a browser command,
    and the records the framework writes to its log and its test report. */
module Effects {

  /** A reference that may be null: `None` stands for Java's `null`. */
  datatype Option<+T> = None | Some(value: T)

  /** A `java.lang.Throwable`, as far as the framework tells them apart. */
  datatype Throwable =
    | Exception(className: string, message: string)        // an instance of java.lang.Exception
    | Error(className: string, message: string)            // a Throwable that is not an Exception
    | RuntimeException(message: string, cause: Throwable)  // `new RuntimeException(message, cause)`

  /** `catch (Exception e)` catches exactly these. */
  predicate IsException(t: Throwable) {
    !t.Error?
  }

  /** How a call completed: it returned a value or it threw. */
  datatype Outcome<+T> = Returns(value: T) | Throws(thrown: Throwable)

  /** One entry of a sink: a Log4j info or error line, or an Allure report step. */
  datatype Record =
    | LogInfo(cls: string, message: string)
    | LogError(cls: string, message: string, cause: Throwable)
    | ReportStep(message: string)
}

/** The supported browsers and the converter that reads one from the
    configuration's `browserType` string. */
module BrowserTypes {
  import opened Effects

  /** The constants of the `BrowserType` enum, in declaration order. */
  datatype BrowserType = Chrome | Firefox | Edge | Safari | Opera

  /** `name()` of each constant. */
  function Name(b: BrowserType): string {
    match b
    case Chrome => "CHROME"
    case Firefox => "FIREFOX"
    case Edge => "EDGE"
    case Safari => "SAFARI"
    case Opera => "OPERA"
  }

  /** The exception `Enum.valueOf` throws for a name that no constant has. */
  function NoEnumConstant(name: string): Throwable {
    Exception("java.lang.IllegalArgumentException",
              "No enum constant com.evy.framework.constants.BrowserType." + name)
  }

  /** `BrowserType.valueOf`: the constant whose name is exactly `name`. */
  function ValueOf(name: string): (r: Outcome<BrowserType>)
    ensures r.Returns? ==> Name(r.value) == name
    ensures r.Throws? ==> (forall b :: Name(b) != name) && r.thrown == NoEnumConstant(name)
  {
    if name == "CHROME" then Returns(Chrome)
    else if name == "FIREFOX" then Returns(Firefox)
    else if name == "EDGE" then Returns(Edge)
    else if name == "SAFARI" then Returns(Safari)
    else if name == "OPERA" then Returns(Opera)
    else Throws(NoEnumConstant(name))
  }

  /** Upper-casing of one character; only ASCII letters change. */
  function UpperChar(c: char): char {
    if 'a' <= c <= 'z' then (c as int - 'a' as int + 'A' as int) as char else c
  }

  /** Lower-casing of one character; only ASCII letters change. */
  function LowerChar(c: char): char {
    if 'A' <= c <= 'Z' then (c as int - 'A' as int + 'a' as int) as char else c
  }

  /** `String.toUpperCase` on ASCII text. */
  function ToUpper(s: string): (u: string)
    ensures |u| == |s|
    ensures forall i :: 0 <= i < |s| ==> u[i] == UpperChar(s[i])
  {
    if s == [] then [] else [UpperChar(s[0])] + ToUpper(s[1..])
  }

  /** `String.toLowerCase` on ASCII text. */
  function ToLower(s: string): (l: string)
    ensures |l| == |s|
    ensures forall i :: 0 <= i < |s| ==> l[i] == LowerChar(s[i])
  {
    if s == [] then [] else [LowerChar(s[0])] + ToLower(s[1..])
  }

  /** `BrowserTypeConverter.convert`: the configuration method is ignored, the
      string is upper-cased and looked up by exact name; nothing is trimmed. */
  function Convert(configMethod: string, browserType: string): (r: Outcome<BrowserType>)
    ensures r.Returns? <==> exists b :: Name(b) == ToUpper(browserType)
    ensures r.Returns? ==> Name(r.value) == ToUpper(browserType)
    ensures r.Throws? ==> r.thrown == NoEnumConstant(ToUpper(browserType))
  {
    ValueOf(ToUpper(browserType))
  }

  /** Every constant's name is already upper case. */
  lemma NameIsUpperCase(b: BrowserType)
    ensures ToUpper(Name(b)) == Name(b)
  {
  }

  /** Upper-casing forgets whatever lower-casing did. */
  lemma UpperOfLower(s: string)
    ensures ToUpper(ToLower(s)) == ToUpper(s)
  {
  }

  /** Round trip: the name of every constant converts back to it, in upper and
      in lower case. */
  lemma ConvertRoundTrip(configMethod: string, b: BrowserType)
    ensures Convert(configMethod, Name(b)) == Returns(b)
    ensures Convert(configMethod, ToLower(Name(b))) == Returns(b)
  {
    NameIsUpperCase(b);
    UpperOfLower(Name(b));
  }

  /** A string converts to `b` exactly when it spells `b`'s name in any mix of
      letter cases. */
  lemma ConvertAnyCase(configMethod: string, s: string, b: BrowserType)
    ensures Convert(configMethod, s) == Returns(b)
        <==> |s| == |Name(b)| && forall i :: 0 <= i < |s| ==> UpperChar(s[i]) == Name(b)[i]
  {
  }

  /** The result depends only on the upper-cased string, never on the
      configuration method. */
  lemma ConvertCaseInsensitive(m1: string, s1: string, m2: string, s2: string)
    requires ToUpper(s1) == ToUpper(s2)
    ensures Convert(m1, s1) == Convert(m2, s2)
  {
  }

  /** Nothing is trimmed: the empty string and any name with a space before or
      after it are rejected. */
  lemma ConvertRejectsEmptyAndPadded(configMethod: string, b: BrowserType)
    ensures Convert(configMethod, "") == Throws(NoEnumConstant(""))
    ensures Convert(configMethod, " " + Name(b)).Throws?
    ensures Convert(configMethod, Name(b) + " ").Throws?
  {
  }
}

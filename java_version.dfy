/**
 * `com.kraken.KrakenClient`: the launcher. `checkJavaVersion` reads the major
 * Java version as the first run of digits in the `java.version` property and
 * accepts 11 or lower; `main` calls it and launches the client whatever it
 * answers.
 */
module JavaVersionCheck {
  import opened Wrappers
  import opened JavaStrings

  const MAX_SUPPORTED_MAJOR: int := 11

  /** How `checkJavaVersion` ends: a verdict (after the dialog, if shown), or an escaping `NumberFormatException`. */
  datatype CheckOutcome = Returned(supported: bool, dialogShown: bool) | Threw

  /** The longest prefix of `s` made of digits. */
  function LeadingDigits(s: string): (run: string)
    ensures |run| <= |s| && run == s[..|run|] && AllDigits(run)
    ensures |run| == |s| || !IsDigit(s[|run|])
  {
    if s == [] || !IsDigit(s[0]) then [] else [s[0]] + LeadingDigits(s[1..])
  }

  /** What the pattern `(\d+)` finds first: `None` when `s` has no digit. */
  function FirstDigitRun(s: string): (r: Option<string>)
    ensures r.Some? ==> r.value != [] && AllDigits(r.value)
  {
    if s == [] then None
    else if IsDigit(s[0]) then Some(LeadingDigits(s))
    else FirstDigitRun(s[1..])
  }

  /** `checkJavaVersion` on the value of `java.version`. */
  function CheckJavaVersion(javaVersion: string): CheckOutcome {
    match FirstDigitRun(javaVersion)
    case None => Returned(false, false)
    case Some(run) =>
      match ParseInt(run)
      case None => Threw
      case Some(majorVersion) =>
        if majorVersion > MAX_SUPPORTED_MAJOR then Returned(false, true) else Returned(true, false)
  }

  /** `main`: the verdict is discarded; only an exception stops the launch. */
  function LaunchesClient(javaVersion: string): (launched: bool)
    ensures launched <==> !CheckJavaVersion(javaVersion).Threw?
  {
    match CheckJavaVersion(javaVersion)
    case Threw => false
    case Returned(_, _) => true
  }

  // ---------------------------------------------------------------- properties

  /**
   * The run found starts at the first digit, after a digit-free prefix, and
   * is maximal; there is none exactly when `s` has no digit.
   */
  lemma {:induction false} FirstDigitRunIsFirst(s: string)
    ensures FirstDigitRun(s).None? <==> forall i :: 0 <= i < |s| ==> !IsDigit(s[i])
    ensures FirstDigitRun(s).Some? ==> exists k ::
      && 0 <= k < |s|
      && (forall i :: 0 <= i < k ==> !IsDigit(s[i]))
      && FirstDigitRun(s).value == LeadingDigits(s[k..])
  {
    if s != [] {
      if IsDigit(s[0]) {
        assert s[0..] == s;
      } else {
        FirstDigitRunIsFirst(s[1..]);
        if FirstDigitRun(s[1..]).Some? {
          var k :| 0 <= k < |s[1..]| && (forall i :: 0 <= i < k ==> !IsDigit(s[1..][i]))
            && FirstDigitRun(s[1..]).value == LeadingDigits(s[1..][k..]);
          assert s[1..][k..] == s[k + 1..];
          forall i | 0 <= i < k + 1 ensures !IsDigit(s[i]) {
            if i > 0 { assert s[i] == s[1..][i - 1]; }
          }
        } else {
          forall i | 0 <= i < |s| ensures !IsDigit(s[i]) {
            if i > 0 { assert s[i] == s[1..][i - 1]; }
          }
        }
      }
    }
  }

  /**
   * The verdict: supported exactly for a found major version of at most 11,
   * the dialog exactly for one above 11, and an exception exactly when the
   * digits overflow `int`.
   */
  lemma Verdict(javaVersion: string)
    ensures var r := CheckJavaVersion(javaVersion); var run := FirstDigitRun(javaVersion);
      && (r.Threw? <==> run.Some? && DigitsValue(run.value) > INT_MAX)
      && (r == Returned(true, false) <==> run.Some? && DigitsValue(run.value) <= MAX_SUPPORTED_MAJOR)
      && (r == Returned(false, true) <==> run.Some? && MAX_SUPPORTED_MAJOR < DigitsValue(run.value) <= INT_MAX)
      && (r == Returned(false, false) <==> run.None?)
  {
    var run := FirstDigitRun(javaVersion);
    if run.Some? {
      assert IsDigit(run.value[0]);
    }
  }

  /** Java 8's version string passes (its first run is "1"), Java 17's and 11's do as expected, and no digits fails. */
  lemma VersionExamples()
    ensures CheckJavaVersion("1.8.0_292") == Returned(true, false)
    ensures CheckJavaVersion("11.0.19") == Returned(true, false)
    ensures CheckJavaVersion("17.0.2") == Returned(false, true)
    ensures CheckJavaVersion("ea") == Returned(false, false)
  {
    assert "1.8.0_292"[1..] == ".8.0_292";
    assert LeadingDigits("1.8.0_292") == "1";
    assert LeadingDigits("1.0.19") == "1";
    assert LeadingDigits("11.0.19") == "11";
    assert DigitsValue("11") == 11 by { assert "11"[..1] == "1"; }
    assert LeadingDigits("7.0.2") == "7";
    assert LeadingDigits("17.0.2") == "17";
    assert DigitsValue("17") == 17 by { assert "17"[..1] == "1"; }
    assert FirstDigitRun("a") == None;
  }

  /**
   * Any unsupported version that does not overflow `int`, and a version
   * string without digits, still launches the client; only the first shows
   * the dialog.
   */
  lemma UnsupportedStillLaunches(javaVersion: string)
    requires var run := FirstDigitRun(javaVersion);
      run.None? || MAX_SUPPORTED_MAJOR < DigitsValue(run.value) <= INT_MAX
    ensures CheckJavaVersion(javaVersion).Returned? && !CheckJavaVersion(javaVersion).supported
    ensures CheckJavaVersion(javaVersion).dialogShown <==> FirstDigitRun(javaVersion).Some?
    ensures LaunchesClient(javaVersion)
  {
    Verdict(javaVersion);
  }
}

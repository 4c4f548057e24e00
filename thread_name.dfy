/**
  The identity resolver: the name of the current thread decides which
  environment variable holds that thread's "current test" descriptor.
  A thread named `pytest-thread-<digits>` owns
  `PYTEST_CURRENT_TEST_THREAD_<digits>`; every other thread shares
  `PYTEST_CURRENT_TEST`.
 */
module ThreadName {
  import opened Wrappers

  /** The literal part of THREAD_NAME_PATTERN, `^pytest-thread-(\d+)$`. */
  const ThreadNamePrefix: string := "pytest-thread-"

  /** The key of the main thread, pytest's standard variable. */
  const MainKey: string := "PYTEST_CURRENT_TEST"

  /** Every per-thread key starts with this. */
  const ThreadKeyPrefix: string := "PYTEST_CURRENT_TEST_THREAD_"

  /** What `\d` accepts, restricted to ASCII. */
  predicate IsAsciiDigit(c: char) {
    '0' <= c <= '9'
  }

  /** What the group `(\d+)` accepts: one or more digits. */
  ghost predicate IsDigitString(d: string) {
    |d| > 0 && forall i :: 0 <= i < |d| ==> IsAsciiDigit(d[i])
  }

  /** `s.startswith(p)` */
  predicate StartsWith(s: string, p: string) {
    |p| <= |s| && s[..|p|] == p
  }

  /** The whole name matches the anchored pattern. */
  ghost predicate IsThreadName(name: string) {
    StartsWith(name, ThreadNamePrefix) && IsDigitString(name[|ThreadNamePrefix|..])
  }

  /** Consumes the literal `p` at the start of `s`, giving what follows it. */
  function StripPrefix(p: string, s: string): (rest: Option<string>)
    ensures rest.Some? <==> StartsWith(s, p)
    ensures rest.Some? ==> s == p + rest.value
  {
    if p == [] then Some(s)
    else if s == [] || s[0] != p[0] then None
    else
      var r := StripPrefix(p[1..], s[1..]);
      assert StartsWith(s, p) <==> StartsWith(s[1..], p[1..]) by {
        if StartsWith(s[1..], p[1..]) {
          assert s[..|p|] == [s[0]] + s[1..][..|p| - 1];
        }
        if StartsWith(s, p) {
          assert s[1..][..|p| - 1] == s[..|p|][1..];
        }
      }
      r
  }

  /** Consumes `\d*$`: true when every character left is a digit. */
  function DigitRun(s: string): (ok: bool)
    ensures ok <==> forall i :: 0 <= i < |s| ==> IsAsciiDigit(s[i])
  {
    if s == [] then true
    else
      var tail := DigitRun(s[1..]);
      assert (forall i :: 0 <= i < |s| ==> IsAsciiDigit(s[i]))
        <==> IsAsciiDigit(s[0]) && forall i :: 0 <= i < |s| - 1 ==> IsAsciiDigit(s[1..][i]);
      IsAsciiDigit(s[0]) && tail
  }

  /**
    THREAD_NAME_PATTERN.match(name): the captured digit group when the whole
    name matches, None otherwise.
   */
  function MatchThreadName(name: string): (group: Option<string>)
    ensures group.Some? <==> IsThreadName(name)
    ensures group.Some? ==> IsDigitString(group.value) && name == ThreadNamePrefix + group.value
  {
    match StripPrefix(ThreadNamePrefix, name)
    case None => None
    case Some(rest) =>
      assert rest == name[|ThreadNamePrefix|..];
      if rest != [] && DigitRun(rest) then Some(rest) else None
  }

  /** `_thread_var_name()`, with the thread's name passed in. */
  function VarName(name: string): (key: string)
    ensures IsThreadName(name) ==> key == ThreadKeyPrefix + name[|ThreadNamePrefix|..]
    ensures !IsThreadName(name) ==> key == MainKey
  {
    match MatchThreadName(name)
    case Some(digits) =>
      assert digits == name[|ThreadNamePrefix|..];
      ThreadKeyPrefix + digits
    case None => MainKey
  }

  /** A numbered name's digits are copied into the key verbatim. */
  lemma NumberedNameResolves(digits: string)
    requires IsDigitString(digits)
    ensures IsThreadName(ThreadNamePrefix + digits)
    ensures VarName(ThreadNamePrefix + digits) == ThreadKeyPrefix + digits
  {
    var name := ThreadNamePrefix + digits;
    assert name[..|ThreadNamePrefix|] == ThreadNamePrefix;
    assert name[|ThreadNamePrefix|..] == digits;
  }

  /**
    The digits are not re-rendered as a number: a leading zero gives another
    key, so `pytest-thread-01` and `pytest-thread-1` do not share a slot.
   */
  lemma LeadingZeroKeepsOwnKey(digits: string)
    requires IsDigitString(digits)
    ensures VarName(ThreadNamePrefix + "0" + digits) == ThreadKeyPrefix + "0" + digits
    ensures VarName(ThreadNamePrefix + "0" + digits) != VarName(ThreadNamePrefix + digits)
  {
    var padded := "0" + digits;
    assert IsDigitString(padded) by {
      forall i | 0 <= i < |padded| ensures IsAsciiDigit(padded[i]) {
        if i > 0 { assert padded[i] == digits[i - 1]; }
      }
    }
    NumberedNameResolves(padded);
    NumberedNameResolves(digits);
    assert ThreadNamePrefix + padded == ThreadNamePrefix + "0" + digits;
    assert ThreadKeyPrefix + padded == ThreadKeyPrefix + "0" + digits;
  }

  /** A name that does not fully match the anchored pattern falls back to the main key. */
  lemma UnmatchedNamesShareMainKey()
    ensures VarName("") == MainKey
    ensures VarName("MainThread") == MainKey
    ensures VarName("pytest-thread-") == MainKey
    ensures VarName("pytest-thread-abc") == MainKey
    ensures VarName("pytest-thread-1x") == MainKey
    ensures VarName("xpytest-thread-1") == MainKey
    ensures VarName("pytest-main-thread") == MainKey
  {
    var p := |ThreadNamePrefix|;
    assert "pytest-thread-abc"[p] == 'a';
    assert "pytest-thread-1x"[p..][1] == 'x';
    assert "xpytest-thread-1"[0] != ThreadNamePrefix[0];
    assert "pytest-main-thread"[7] != ThreadNamePrefix[7];
  }

  /**
    Two names share a key exactly when they are the same name or neither is
    a numbered thread name.
   */
  lemma VarNameInjective(a: string, b: string)
    ensures VarName(a) == VarName(b) <==> a == b || (!IsThreadName(a) && !IsThreadName(b))
  {
    var p := |ThreadNamePrefix|;
    if IsThreadName(a) && IsThreadName(b) && VarName(a) == VarName(b) {
      assert a[p..] == VarName(a)[|ThreadKeyPrefix|..];
      assert a == a[..p] + a[p..];
      assert b == b[..p] + b[p..];
    }
    if IsThreadName(a) != IsThreadName(b) {
      assert |VarName(a)| != |VarName(b)|;
    }
  }

  /**
    The filter `k.startswith("PYTEST_CURRENT_TEST_THREAD_")` picks out exactly
    the keys of numbered threads.
   */
  lemma ThreadKeyFilterSeparates(name: string)
    ensures StartsWith(VarName(name), ThreadKeyPrefix) <==> IsThreadName(name)
    ensures IsThreadName(name) ==> VarName(name) != MainKey
  {
    if IsThreadName(name) {
      assert (ThreadKeyPrefix + name[|ThreadNamePrefix|..])[..|ThreadKeyPrefix|] == ThreadKeyPrefix;
    }
  }
}

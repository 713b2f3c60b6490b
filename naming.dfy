/**
 * `createEnvironmentName`: the name of the fresh environment a blue-green
 * deploy creates, built from the application name and a timestamp.
 */
module Naming {
  import opened Basics

  /** The longest environment name the task aims for. */
  const MaxEnvironmentNameLength: int := 23

  /** A character of the class `[a-zA-Z0-9\-]`. */
  predicate IsNameChar(c: char) {
    'a' <= c <= 'z' || 'A' <= c <= 'Z' || '0' <= c <= '9' || c == '-'
  }

  /** The test `/^[a-zA-Z0-9\-]+$/`: non-empty and made of name characters only. */
  predicate IsValidName(s: string) {
    |s| > 0 && forall i :: 0 <= i < |s| ==> IsNameChar(s[i])
  }

  /**
   * `s.length` in JavaScript: the number of UTF-16 code units, two for a
   * character outside the Basic Multilingual Plane.
   */
  function JsLength(s: string): nat
  {
    if s == [] then 0 else JsLength(s[..|s| - 1]) + (if s[|s| - 1] as int > 0xFFFF then 2 else 1)
  }

  /** A string has at least as many code units as characters. */
  lemma {:induction false} JsLengthAtLeast(s: string)
    ensures |s| <= JsLength(s)
  {
    if s != [] {
      JsLengthAtLeast(s[..|s| - 1]);
    }
  }

  /** Inside the Basic Multilingual Plane (where every name character lies) code units and characters agree. */
  lemma {:induction false} JsLengthOfBmp(s: string)
    requires forall i :: 0 <= i < |s| ==> s[i] as int <= 0xFFFF
    ensures JsLength(s) == |s|
  {
    if s != [] {
      JsLengthOfBmp(s[..|s| - 1]);
    }
  }

  /** `String.prototype.substring`: both ends clamped to `[0, |s|]`, swapped when start exceeds end. */
  function Substring(s: string, start: int, end: int): string
  {
    var a := Min(Max(start, 0), |s|);
    var b := Min(Max(end, 0), |s|);
    if a <= b then s[a..b] else s[b..a]
  }

  /** Taking `substring(|s| - n, |s|)` keeps the last `min(|s|, max(0, n))` characters. */
  lemma SubstringIsSuffix(s: string, n: int)
    ensures var k := Min(|s|, Max(0, n));
            Substring(s, |s| - n, |s|) == s[|s| - k..] && |s[|s| - k..]| == k
  {
  }

  /** `s.replace(/[^a-zA-Z0-9\-]+/g, "")`: every character outside the class removed, the rest kept in order. */
  function StripInvalid(s: string): (r: string)
    ensures |r| <= |s|
    ensures forall i :: 0 <= i < |r| ==> IsNameChar(r[i])
    ensures (forall i :: 0 <= i < |s| ==> IsNameChar(s[i])) ==> r == s
  {
    if s == [] then []
    else
      assert s == [s[0]] + s[1..];
      (if IsNameChar(s[0]) then [s[0]] else []) + StripInvalid(s[1..])
  }

  /** Stripping keeps every occurrence of every name character. */
  lemma {:induction false} StripInvalidKeepsNameChars(s: string, c: char)
    requires IsNameChar(c)
    ensures multiset(StripInvalid(s))[c] == multiset(s)[c]
  {
    if s != [] {
      StripInvalidKeepsNameChars(s[1..], c);
      assert s == [s[0]] + s[1..];
    }
  }

  /** Stripping a concatenation strips each part and keeps them in order. */
  lemma {:induction false} StripInvalidAppend(a: string, b: string)
    ensures StripInvalid(a + b) == StripInvalid(a) + StripInvalid(b)
  {
    if a != [] {
      assert (a + b)[1..] == a[1..] + b;
      StripInvalidAppend(a[1..], b);
    } else {
      assert a + b == b;
    }
  }

  /** A single character survives exactly when it is a name character. */
  lemma StripInvalidSingle(c: char)
    ensures StripInvalid([c]) == if IsNameChar(c) then [c] else []
  {
  }

  /**
   * The new environment's name: the application name stripped of characters
   * outside `[a-zA-Z0-9\-]`, followed by the last `23 - applicationName.length`
   * characters of `time` (all of it when it is shorter, none when the name
   * already uses the budget up). The budget is taken from the ORIGINAL name,
   * counted in UTF-16 code units.
   */
  function CreateEnvironmentName(applicationName: string, time: string): (r: string)
    ensures var k := Min(|time|, Max(0, MaxEnvironmentNameLength - JsLength(applicationName)));
            r == StripInvalid(applicationName) + time[|time| - k..]
    ensures IsValidName(applicationName) ==> r[..|applicationName|] == applicationName
  {
    var availableSpace := MaxEnvironmentNameLength - JsLength(applicationName);
    var timePart := Substring(time, |time| - availableSpace, |time|);
    SubstringIsSuffix(time, availableSpace);
    if IsValidName(applicationName) then applicationName + timePart
    else StripInvalid(applicationName) + timePart
  }

  /**
   * The name fits in 23 characters when the application name does; an
   * application name of 23 characters or more gets no time suffix at all, and
   * the result is then not clipped to 23.
   */
  lemma EnvironmentNameLength(applicationName: string, time: string)
    ensures JsLength(applicationName) <= MaxEnvironmentNameLength ==>
              |CreateEnvironmentName(applicationName, time)| <= MaxEnvironmentNameLength
    ensures JsLength(applicationName) >= MaxEnvironmentNameLength ==>
              CreateEnvironmentName(applicationName, time) == StripInvalid(applicationName)
  {
    var r := CreateEnvironmentName(applicationName, time);
    var n := JsLength(applicationName);
    var prefix := StripInvalid(applicationName);
    var suffix := time[|time| - Min(|time|, Max(0, MaxEnvironmentNameLength - n))..];
    assert r == prefix + suffix;
    JsLengthAtLeast(applicationName);
    assert |prefix| <= n;
    if n >= MaxEnvironmentNameLength {
      assert suffix == [];
    }
  }

  /**
   * A character outside the Basic Multilingual Plane takes two code units of
   * the budget although it is stripped: a valid 21-character name followed by
   * an emoji leaves no room for the time stamp.
   */
  lemma AstralCharacterTakesTwoUnits(name: string, time: string)
    requires IsValidName(name) && |name| == 21
    ensures CreateEnvironmentName(name + ['\U{1F600}'], time) == name
  {
    var app := name + ['\U{1F600}'];
    assert app[..|app| - 1] == name;
    JsLengthOfBmp(name);
    assert JsLength(app) == 23;
    StripInvalidAppend(name, ['\U{1F600}']);
    StripInvalidSingle('\U{1F600}');
    EnvironmentNameLength(app, time);
  }

  /** Every character before the time suffix is a letter, a digit or a dash. */
  lemma NameCharsBeforeSuffix(applicationName: string, time: string)
    ensures var r := CreateEnvironmentName(applicationName, time);
            var prefix := StripInvalid(applicationName);
            |prefix| <= |r| && r[..|prefix|] == prefix &&
            forall i :: 0 <= i < |prefix| ==> IsNameChar(r[i])
  {
    var r := CreateEnvironmentName(applicationName, time);
    var prefix := StripInvalid(applicationName);
    var k := Min(|time|, Max(0, MaxEnvironmentNameLength - JsLength(applicationName)));
    assert r == prefix + time[|time| - k..];
    assert r[..|prefix|] == prefix;
  }
}

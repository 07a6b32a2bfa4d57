/** The label and colour key of a satellite: all runs of decimal digits in its
    name, joined in order (`satname.match(/\d+/g).join("")`).  `\d` without
    the unicode flag is the ASCII range 0-9. */
module LabelKey {
  import opened Types

  predicate IsDigit(c: char)
  {
    '0' <= c <= '9'
  }

  predicate AllDigits(s: string)
  {
    forall k :: 0 <= k < |s| ==> IsDigit(s[k])
  }

  /** Length of the run of digits that starts s. */
  function LeadingDigits(s: string): (n: nat)
    ensures n <= |s|
    ensures s != [] && IsDigit(s[0]) ==> n > 0
  {
    if s == [] || !IsDigit(s[0]) then 0
    else 1 + LeadingDigits(s[1..])
  }

  /** The leading run is all digits and maximal: the next character, if any, is no digit. */
  lemma {:induction false} LeadingRunIsMaximal(s: string)
    ensures AllDigits(s[..LeadingDigits(s)])
    ensures LeadingDigits(s) < |s| ==> !IsDigit(s[LeadingDigits(s)])
  {
    if s != [] && IsDigit(s[0]) {
      LeadingRunIsMaximal(s[1..]);
      var m := LeadingDigits(s[1..]);
      assert s[..1 + m] == [s[0]] + s[1..][..m];
    }
  }

  /** The maximal digit runs of s, left to right: what the global match collects. */
  function DigitRuns(s: string): seq<string>
    decreases |s|
  {
    if s == [] then []
    else if !IsDigit(s[0]) then DigitRuns(s[1..])
    else
      var n := LeadingDigits(s);
      [s[..n]] + DigitRuns(s[n..])
  }

  /** Every run the global match collects is a nonempty string of digits. */
  lemma {:induction false} DigitRunsAreDigits(s: string)
    ensures forall r :: r in DigitRuns(s) ==> r != [] && AllDigits(r)
    decreases |s|
  {
    if s == [] {
    } else if !IsDigit(s[0]) {
      DigitRunsAreDigits(s[1..]);
    } else {
      var n := LeadingDigits(s);
      LeadingRunIsMaximal(s);
      DigitRunsAreDigits(s[n..]);
      assert DigitRuns(s) == [s[..n]] + DigitRuns(s[n..]);
    }
  }

  /** `Array.prototype.join("")` on strings. */
  function Concat(runs: seq<string>): string
  {
    if runs == [] then [] else runs[0] + Concat(runs[1..])
  }

  /** The digit characters of s, in order. */
  function Digits(s: string): string
  {
    if s == [] then []
    else (if IsDigit(s[0]) then [s[0]] else []) + Digits(s[1..])
  }

  /** The key of a satellite name; None where `match` returns null and the
      following `.join` throws. */
  function Key(satname: string): Option<string>
  {
    var runs := DigitRuns(satname);
    if runs == [] then None else Some(Concat(runs))
  }

  lemma {:induction false} DigitsAppend(a: string, b: string)
    ensures Digits(a + b) == Digits(a) + Digits(b)
  {
    if a != [] {
      assert (a + b)[1..] == a[1..] + b;
      DigitsAppend(a[1..], b);
    } else {
      assert a + b == b;
    }
  }

  lemma {:induction false} DigitsOfDigitRun(s: string)
    requires AllDigits(s)
    ensures Digits(s) == s
  {
    if s != [] {
      DigitsOfDigitRun(s[1..]);
    }
  }

  /** Joining the digit runs gives exactly the digits of the name, in order. */
  lemma {:induction false} RunsJoinToDigits(s: string)
    ensures Concat(DigitRuns(s)) == Digits(s)
    decreases |s|
  {
    if s == [] {
    } else if !IsDigit(s[0]) {
      RunsJoinToDigits(s[1..]);
    } else {
      var n := LeadingDigits(s);
      LeadingRunIsMaximal(s);
      assert s == s[..n] + s[n..];
      DigitsAppend(s[..n], s[n..]);
      DigitsOfDigitRun(s[..n]);
      RunsJoinToDigits(s[n..]);
      assert DigitRuns(s)[1..] == DigitRuns(s[n..]);
    }
  }

  lemma {:induction false} DigitsAreDigits(s: string)
    ensures AllDigits(Digits(s)) && |Digits(s)| <= |s|
    ensures Digits(s) == [] <==> forall k :: 0 <= k < |s| ==> !IsDigit(s[k])
  {
    if s != [] {
      DigitsAreDigits(s[1..]);
      if !IsDigit(s[0]) {
        assert forall k :: 1 <= k < |s| ==> s[k] == s[1..][k - 1];
      }
    }
  }

  /** The key is the digit characters of the name, and fails exactly when the
      name has none. */
  lemma KeyIsDigitsOfName(satname: string)
    ensures Key(satname) == if Digits(satname) == [] then None else Some(Digits(satname))
  {
    var runs := DigitRuns(satname);
    RunsJoinToDigits(satname);
    DigitRunsAreDigits(satname);
    if runs != [] {
      assert runs[0] in runs;
      assert Concat(runs) == runs[0] + Concat(runs[1..]);
    }
  }

  /** The key fails exactly when no character of the name is a digit. */
  lemma KeyFailsIffNoDigit(satname: string)
    ensures Key(satname).None? <==> forall k :: 0 <= k < |satname| ==> !IsDigit(satname[k])
  {
    KeyIsDigitsOfName(satname);
    DigitsAreDigits(satname);
  }

  /** A key holds only digits, is no longer than the name, and extracting the
      key of a key gives it back unchanged. */
  lemma KeyIsCanonical(satname: string)
    requires Key(satname).Some?
    ensures var key := Key(satname).value;
      && AllDigits(key) && 0 < |key| <= |satname|
      && Key(key) == Some(key)
  {
    var key := Key(satname).value;
    KeyIsDigitsOfName(satname);
    DigitsAreDigits(satname);
    KeyIsDigitsOfName(key);
    DigitsOfDigitRun(key);
  }
}

/**
  The development-server middleware that turns Chrome 129 away. It takes
  the first match of the pattern `Chrom(e|ium)/([0-9]+)\.` in the
  user-agent header; when there is one and its digits read as decimal 129,
  it answers with an HTML notice, otherwise it passes the request on.
 */
module Chrome129 {
  import opened Wrappers

  predicate IsDigit(c: char) {
    '0' <= c <= '9'
  }

  predicate AllDigits(s: string) {
    forall i :: 0 <= i < |s| ==> IsDigit(s[i])
  }

  /** `p` occurs in `s` at position `i`. */
  predicate HasAt(s: string, i: nat, p: string) {
    i + |p| <= |s| && s[i..i + |p|] == p
  }

  /** The pattern matches at position `i` with digit group `d`: "Chrome/"
      or "Chromium/", then `d`, then ".". A non-empty digit run followed by
      "." is necessarily the whole run, so greediness needs no separate
      mention. */
  ghost predicate RegexMatch(s: string, i: nat, d: string) {
    && |d| >= 1
    && AllDigits(d)
    && (HasAt(s, i, "Chrome/" + d + ".") || HasAt(s, i, "Chromium/" + d + "."))
  }

  /** The end of the run of digits that starts at `j`. */
  function DigitRunEnd(s: string, j: nat): (k: nat)
    requires j <= |s|
    ensures j <= k <= |s|
    ensures AllDigits(s[j..k])
    ensures k == |s| || !IsDigit(s[k])
    decreases |s| - j
  {
    if j < |s| && IsDigit(s[j]) then
      var k := DigitRunEnd(s, j + 1);
      assert s[j..k] == [s[j]] + s[j + 1..k];
      k
    else j
  }

  /** Where the digits start when "Chrome/" or "Chromium/" occurs at `i`. */
  function AfterBrand(s: string, i: nat): Option<nat> {
    if HasAt(s, i, "Chrome/") then Some(i + 7)
    else if HasAt(s, i, "Chromium/") then Some(i + 9)
    else None
  }

  /** The pattern tried at one position: the greedy digit group, provided
      a "." follows it. */
  function MatchAt(s: string, i: nat): (m: Option<string>)
    ensures m.Some? ==> |m.value| >= 1 && AllDigits(m.value)
  {
    match AfterBrand(s, i)
    case None => None
    case Some(j) =>
      var k := DigitRunEnd(s, j);
      if j < k && k < |s| && s[k] == '.' then Some(s[j..k]) else None
  }

  /** The leftmost match at or after position `i`, with its position. */
  function FirstMatch(s: string, i: nat): (m: Option<(nat, string)>)
    ensures m.Some? ==>
              && i <= m.value.0 < |s|
              && MatchAt(s, m.value.0) == Some(m.value.1)
              && forall p :: i <= p < m.value.0 ==> MatchAt(s, p).None?
    ensures m.None? ==> forall p :: i <= p < |s| ==> MatchAt(s, p).None?
    decreases |s| - i
  {
    if i >= |s| then None
    else
      match MatchAt(s, i)
      case Some(d) => Some((i, d))
      case None => FirstMatch(s, i + 1)
  }

  function DigitValue(c: char): nat
    requires IsDigit(c)
  {
    (c as int) - ('0' as int)
  }

  /** `parseInt(d, 10)` of a run of decimal digits. */
  function DecimalValue(d: string): nat
    requires AllDigits(d)
    decreases |d|
  {
    if |d| == 0 then 0 else 10 * DecimalValue(d[..|d| - 1]) + DigitValue(d[|d| - 1])
  }

  /** The request is turned away. */
  predicate Blocked(userAgent: Option<string>) {
    match userAgent
    case None => false
    case Some(s) =>
      match FirstMatch(s, 0)
      case None => false
      case Some((_, d)) => DecimalValue(d) == 129
  }

  /** What the middleware does: answer with the HTML notice, or call `next()`. */
  datatype Decision = Respond(contentType: string, html: string) | CallNext

  const Notice := "<body><h1>Please use Chrome Canary for testing.</h1><p>Chrome 129 has an issue with JavaScript modules & Vite local development.</p></body>"

  function Middleware(userAgent: Option<string>): (r: Decision)
    ensures r.Respond? <==> Blocked(userAgent)
    ensures r.Respond? ==> r.contentType == "text/html" && r.html == Notice
    ensures userAgent.None? ==> r == CallNext
  {
    if Blocked(userAgent) then Respond("text/html", Notice) else CallNext
  }

  // ---------------------------------------------------------------------
  // The scanner agrees with the pattern

  /** The end of a digit run is the first non-digit after it. */
  lemma {:induction false} DigitRunEndIs(s: string, j: nat, k: nat)
    requires j <= k < |s|
    requires AllDigits(s[j..k]) && !IsDigit(s[k])
    ensures DigitRunEnd(s, j) == k
    decreases k - j
  {
    if j < k {
      assert s[j] == s[j..k][0];
      assert s[j + 1..k] == s[j..k][1..];
      DigitRunEndIs(s, j + 1, k);
    }
  }

  /** An occurrence of `a + b` is an occurrence of `a` followed by one of `b`. */
  lemma HasAtConcat(s: string, i: nat, a: string, b: string)
    ensures HasAt(s, i, a + b) <==> HasAt(s, i, a) && HasAt(s, i + |a|, b)
  {
    if HasAt(s, i, a) && HasAt(s, i + |a|, b) {
      assert s[i..i + |a + b|] == s[i..i + |a|] + s[i + |a|..i + |a| + |b|];
    }
    if HasAt(s, i, a + b) {
      assert s[i..i + |a|] == s[i..i + |a + b|][..|a|];
      assert s[i + |a|..i + |a| + |b|] == s[i..i + |a + b|][|a|..];
    }
  }

  /** `MatchAt` finds exactly the matches of the pattern. */
  lemma MatchAtIff(s: string, i: nat, d: string)
    ensures MatchAt(s, i) == Some(d) <==> RegexMatch(s, i, d)
  {
    HasAtConcat(s, i, "Chrome/" + d, ".");
    HasAtConcat(s, i, "Chrome/", d);
    HasAtConcat(s, i, "Chromium/" + d, ".");
    HasAtConcat(s, i, "Chromium/", d);
    if HasAt(s, i, "Chromium/") {
      assert s[i + 5] == "Chromium/"[5];
      assert !HasAt(s, i, "Chrome/");
    }
    if RegexMatch(s, i, d) {
      var j := AfterBrand(s, i).value;
      assert s[j..j + |d|] == d;
      assert s[j + |d|] == s[j + |d|..j + |d| + 1][0];
      DigitRunEndIs(s, j, j + |d|);
    }
  }

  /** A request is blocked exactly when the user agent has a match whose
      digits read as 129 and no match starts further left. */
  lemma BlockedIff(s: string)
    ensures Blocked(Some(s)) <==>
              exists i: nat, d: string ::
                && RegexMatch(s, i, d)
                && DecimalValue(d) == 129
                && forall p: nat, e: string :: p < i ==> !RegexMatch(s, p, e)
  {
    var m := FirstMatch(s, 0);
    if m.Some? {
      var (i, d) := m.value;
      MatchAtIff(s, i, d);
      forall p: nat, e: string | p < i
        ensures !RegexMatch(s, p, e)
      {
        MatchAtIff(s, p, e);
      }
      if !Blocked(Some(s)) {
        forall i': nat, d': string | RegexMatch(s, i', d') && DecimalValue(d') == 129
          ensures exists p: nat, e: string :: p < i' && RegexMatch(s, p, e)
        {
          MatchAtIff(s, i', d');
          if i' > i {
            assert RegexMatch(s, i, d);
          }
        }
      }
    } else {
      forall i': nat, d': string | RegexMatch(s, i', d')
        ensures false
      {
        MatchAtIff(s, i', d');
      }
    }
  }

  // ---------------------------------------------------------------------
  // Which digit groups read as 129

  function Zeros(n: nat): (z: string)
    ensures |z| == n && AllDigits(z)
  {
    seq(n, _ => '0')
  }

  lemma {:induction false} ZeroValue(d: string)
    requires AllDigits(d)
    ensures DecimalValue(d) == 0 <==> d == Zeros(|d|)
    decreases |d|
  {
    if |d| > 0 {
      var init := d[..|d| - 1];
      ZeroValue(init);
      if d == Zeros(|d|) {
        assert init == Zeros(|d| - 1);
      }
      if DecimalValue(d) == 0 {
        assert d == init + [d[|d| - 1]];
      }
    }
  }

  /** Appending a digit shifts the value one decimal place. */
  lemma DecimalAppend(d: string, c: char)
    requires AllDigits(d) && IsDigit(c)
    ensures AllDigits(d + [c])
    ensures DecimalValue(d + [c]) == 10 * DecimalValue(d) + DigitValue(c)
  {
    assert (d + [c])[..|d|] == d;
  }

  /** Leading zeros are ignored and nothing else reads as 129. */
  lemma Value129Iff(d: string)
    requires AllDigits(d)
    ensures DecimalValue(d) == 129 <==> |d| >= 3 && d == Zeros(|d| - 3) + "129"
  {
    if |d| >= 3 && d == Zeros(|d| - 3) + "129" {
      Padded129(|d| - 3);
    }
    if DecimalValue(d) == 129 {
      Reads129(d);
    }
  }

  lemma Padded129(n: nat)
    ensures AllDigits(Zeros(n) + "129") && DecimalValue(Zeros(n) + "129") == 129
  {
    var z := Zeros(n);
    ZeroValue(z);
    DecimalAppend(z, '1');
    DecimalAppend(z + "1", '2');
    DecimalAppend(z + "12", '9');
    assert z + "1" + "2" == z + "12";
    assert z + "12" + "9" == z + "129";
  }

  /** If `d` reads as `10 * q + r` with `r` a digit, its last digit is `r`
      and the digits before it read as `q`. */
  lemma PeelLast(d: string, q: nat, c: char) returns (init: string)
    requires AllDigits(d) && IsDigit(c) && DecimalValue(d) == 10 * q + DigitValue(c) > 0
    ensures AllDigits(init) && DecimalValue(init) == q
    ensures d == init + [c]
  {
    init := d[..|d| - 1];
    assert d == init + [d[|d| - 1]];
    assert DecimalValue(d) == 10 * DecimalValue(init) + DigitValue(d[|d| - 1]);
  }

  /** Three appended digits spell "129". */
  lemma Spell129(z: string, d2: string, d1: string, d: string)
    requires d2 == z + ['1'] && d1 == d2 + ['2'] && d == d1 + ['9']
    ensures d == z + "129"
  {
    assert d1 == z + "12";
  }

  lemma Reads129(d: string)
    requires AllDigits(d) && DecimalValue(d) == 129
    ensures |d| >= 3 && d == Zeros(|d| - 3) + "129"
  {
    var d1 := PeelLast(d, 12, '9');
    assert DecimalValue(d1) == 12 == 10 * 1 + DigitValue('2');
    var d2 := PeelLast(d1, 1, '2');
    assert DecimalValue(d2) == 1 == 10 * 0 + DigitValue('1');
    var z := PeelLast(d2, 0, '1');
    ZeroValue(z);
    Spell129(z, d2, d1, d);
  }

  /** "Chromium" is matched as well as "Chrome". */
  lemma ChromiumBlocked()
    ensures Blocked(Some("Chromium/129."))
  {
    LeadingMatch("Chromium/129.", "Chromium/", "129");
    Padded129(0);
    assert Zeros(0) + "129" == "129";
  }

  /** `parseInt` ignores leading zeros. */
  lemma LeadingZeroBlocked()
    ensures Blocked(Some("Chrome/0129."))
  {
    LeadingMatch("Chrome/0129.", "Chrome/", "0129");
    Padded129(1);
    assert Zeros(1) + "129" == "0129";
  }

  /** The digit group is the whole digit run. */
  lemma LongerVersionPasses()
    ensures !Blocked(Some("Chrome/1290."))
  {
    LeadingMatch("Chrome/1290.", "Chrome/", "1290");
    Value129Iff("1290");
  }

  /** Without the dot after the digits there is no match. */
  lemma MissingDotPasses()
    ensures !Blocked(Some("Chrome/129"))
  {
    var s := "Chrome/129";
    assert '.' !in s;
    forall p: nat | p < |s|
      ensures MatchAt(s, p).None?
    {
    }
  }

  /** Only the leftmost match is looked at. */
  lemma OnlyFirstMatchCounts()
    ensures !Blocked(Some("Chrome/128. Chrome/129."))
    ensures !Blocked(None)
  {
    LeadingMatch("Chrome/128. Chrome/129.", "Chrome/", "128");
    Value129Iff("128");
  }

  /** A user agent that starts with a match has that match as its first. */
  lemma LeadingMatch(s: string, brand: string, d: string)
    requires brand == "Chrome/" || brand == "Chromium/"
    requires |d| >= 1 && AllDigits(d)
    requires |s| >= |brand| + |d| + 1 && s[..|brand| + |d| + 1] == brand + d + "."
    ensures FirstMatch(s, 0) == Some((0, d))
  {
    assert RegexMatch(s, 0, d);
    MatchAtIff(s, 0, d);
  }
}

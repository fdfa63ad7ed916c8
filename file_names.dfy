/** The PersonX filename parser: the first match of the pattern
    `([\d]+)_c([\d]+)` in an image path gives the person identity and the raw
    camera number, each read as a decimal integer. */
module FileNames {
  import opened Results

  predicate IsDigit(c: char)
  {
    '0' <= c <= '9'
  }

  predicate AllDigits(ds: string)
  {
    forall j :: 0 <= j < |ds| ==> IsDigit(ds[j])
  }

  /** Length of the longest run of digits starting at `i` (what a greedy
      `[\d]+` consumes). */
  function DigitRun(s: string, i: nat): (k: nat)
    requires i <= |s|
    ensures i + k <= |s|
    ensures forall j :: i <= j < i + k ==> IsDigit(s[j])
    ensures i + k < |s| ==> !IsDigit(s[i + k])
    decreases |s| - i
  {
    if i < |s| && IsDigit(s[i]) then 1 + DigitRun(s, i + 1) else 0
  }

  /** A run that is all digits and not followed by a digit is the run. */
  lemma DigitRunIs(s: string, i: nat, k: nat)
    requires i + k <= |s|
    requires forall j :: i <= j < i + k ==> IsDigit(s[j])
    requires i + k < |s| ==> !IsDigit(s[i + k])
    ensures DigitRun(s, i) == k
  {
  }

  /** Python `int()` of a string of decimal digits. */
  function DigitsValue(ds: string): nat
    requires AllDigits(ds)
    decreases |ds|
  {
    if |ds| == 0 then 0
    else DigitsValue(ds[..|ds| - 1]) * 10 + (ds[|ds| - 1] as int - '0' as int)
  }

  /** The shortest decimal spelling of `n`. */
  function NatToDigits(n: nat): (ds: string)
    ensures AllDigits(ds) && |ds| > 0
  {
    if n < 10 then ['0' + n as char]
    else NatToDigits(n / 10) + ['0' + (n % 10) as char]
  }

  lemma {:induction false} DigitsRoundTrip(n: nat)
    ensures DigitsValue(NatToDigits(n)) == n
  {
    if n >= 10 {
      DigitsRoundTrip(n / 10);
      var ds := NatToDigits(n);
      assert ds[..|ds| - 1] == NatToDigits(n / 10);
    }
  }

  /** Leading zeros do not change the value (`int("0042") == 42`). */
  lemma {:induction false} LeadingZeros(z: nat, ds: string)
    requires AllDigits(ds)
    ensures AllDigits(seq(z, _ => '0') + ds)
    ensures DigitsValue(seq(z, _ => '0') + ds) == DigitsValue(ds)
    decreases |ds|
  {
    var zs: string := seq(z, _ => '0');
    if |ds| == 0 {
      assert zs + ds == zs;
      ZerosValue(z);
    } else {
      var n := |ds| - 1;
      LeadingZeros(z, ds[..n]);
      assert (zs + ds)[..|zs + ds| - 1] == zs + ds[..n];
    }
  }

  lemma {:induction false} ZerosValue(z: nat)
    ensures DigitsValue(seq(z, _ => '0')) == 0
  {
    if z > 0 {
      ZerosValue(z - 1);
      assert seq(z, _ => '0')[..z - 1] == seq(z - 1, _ => '0');
    }
  }

  /** The pattern matches at position `i`: a run of digits, then `_c`, then
      at least one digit. Backtracking a greedy `[\d]+` to a shorter run
      leaves a digit, never `_`, so only the longest run can match. */
  predicate MatchAt(s: string, i: nat)
    requires i <= |s|
  {
    var k := DigitRun(s, i);
    k > 0 && i + k + 2 < |s| && s[i + k] == '_' && s[i + k + 1] == 'c' && IsDigit(s[i + k + 2])
  }

  /** The two captured groups at a matching position, as integers. */
  function GroupsAt(s: string, i: nat): (nat, nat)
    requires i <= |s| && MatchAt(s, i)
  {
    var k := DigitRun(s, i);
    var c := i + k + 2;
    var m := DigitRun(s, c);
    (DigitsValue(s[i..i + k]), DigitsValue(s[c..c + m]))
  }

  /** `re.search` from position `i`: the leftmost matching position. */
  function FirstMatch(s: string, i: nat): (r: Option<nat>)
    requires i <= |s|
    ensures r.Some? ==> i <= r.value < |s| && MatchAt(s, r.value)
    ensures r.Some? ==> forall m :: i <= m < r.value ==> !MatchAt(s, m)
    ensures r.None? ==> forall m :: i <= m <= |s| ==> !MatchAt(s, m)
    decreases |s| - i
  {
    if i == |s| then None
    else if MatchAt(s, i) then Some(i)
    else FirstMatch(s, i + 1)
  }

  /** `pattern.search(path).groups()` as integers; `None` where Python would
      fail on a path without a match. */
  function ParseName(s: string): Option<(nat, nat)>
  {
    match FirstMatch(s, 0)
    case None => None
    case Some(i) => Some(GroupsAt(s, i))
  }

  /** A path prefix that cannot start a match and cannot extend the run of
      digits that follows it: it does not end in a digit and no digit in it
      is directly followed by `_` (directory names such as `subset1/` or
      `bounding_box_train/` qualify). */
  ghost predicate QuietPrefix(p: string)
  {
    (|p| == 0 || !IsDigit(p[|p| - 1]))
    && forall i, j :: 0 <= i < j < |p| && j == i + 1 ==> IsDigit(p[i]) ==> p[j] != '_'
  }

  /** Nothing matches inside a quiet prefix of `s`. */
  lemma QuietPrefixNoMatch(s: string, p: nat)
    requires p <= |s| && QuietPrefix(s[..p])
    ensures forall m :: 0 <= m < p ==> !MatchAt(s, m)
  {
    forall m | 0 <= m < p ensures !MatchAt(s, m) {
      var k := DigitRun(s, m);
      if k > 0 {
        assert s[..p][p - 1] == s[p - 1];
        assert IsDigit(s[..p][m + k - 1]);
        assert s[m + k] == s[..p][m + k];
        assert s[..p][m + k] != '_';
      }
    }
  }

  /** The leftmost match is the one with no match before it. */
  lemma FirstMatchIs(s: string, p: nat)
    requires p <= |s| && MatchAt(s, p)
    requires forall m :: 0 <= m < p ==> !MatchAt(s, m)
    ensures FirstMatch(s, 0) == Some(p)
  {
  }

  /** Where no match starts before `p` and one starts at `p` with runs of
      `k` and `m` digits, the path parses to the values of the two runs. */
  lemma ParseAtIndex(s: string, p: nat, k: nat, m: nat)
    requires p <= |s| && MatchAt(s, p)
    requires forall i :: 0 <= i < p ==> !MatchAt(s, i)
    requires DigitRun(s, p) == k && DigitRun(s, p + k + 2) == m
    ensures AllDigits(s[p..p + k]) && AllDigits(s[p + k + 2..p + k + 2 + m])
    ensures ParseName(s) == Some((DigitsValue(s[p..p + k]), DigitsValue(s[p + k + 2..p + k + 2 + m])))
  {
    FirstMatchIs(s, p);
  }

  /** A path whose quiet prefix of length `p` is followed by a run of `k`
      digits, `_c`, and a complete run of `m` digits parses to the values of
      the two runs. */
  lemma ParseAt(s: string, p: nat, k: nat, m: nat)
    requires p + k + 2 + m <= |s| && k > 0 && m > 0
    requires QuietPrefix(s[..p])
    requires AllDigits(s[p..p + k]) && AllDigits(s[p + k + 2..p + k + 2 + m])
    requires s[p + k] == '_' && s[p + k + 1] == 'c'
    requires p + k + 2 + m < |s| ==> !IsDigit(s[p + k + 2 + m])
    ensures ParseName(s) == Some((DigitsValue(s[p..p + k]), DigitsValue(s[p + k + 2..p + k + 2 + m])))
  {
    RunsAt(s, p, k, m);
    QuietPrefixNoMatch(s, p);
    ParseAtIndex(s, p, k, m);
  }

  /** A path whose quiet prefix is followed by the digits `ds`, `_c`, and the
      complete digits `cs` parses to the values of the two runs. */
  lemma ParseSpelled(s: string, prefix: string, ds: string, cs: string)
    requires |prefix| + |ds| + 2 + |cs| <= |s| && |ds| > 0 && |cs| > 0
    requires QuietPrefix(prefix) && AllDigits(ds) && AllDigits(cs)
    requires s[..|prefix|] == prefix
    requires s[|prefix|..|prefix| + |ds|] == ds
    requires s[|prefix| + |ds|] == '_' && s[|prefix| + |ds| + 1] == 'c'
    requires s[|prefix| + |ds| + 2..|prefix| + |ds| + 2 + |cs|] == cs
    requires |prefix| + |ds| + 2 + |cs| < |s| ==> !IsDigit(s[|prefix| + |ds| + 2 + |cs|])
    ensures ParseName(s) == Some((DigitsValue(ds), DigitsValue(cs)))
  {
    ParseAt(s, |prefix|, |ds|, |cs|);
  }

  /** Digit runs of `k` and `m` characters around `_c` at `p` are the greedy
      runs, and the pattern matches at `p`. */
  lemma RunsAt(s: string, p: nat, k: nat, m: nat)
    requires p + k + 2 + m <= |s| && k > 0 && m > 0
    requires AllDigits(s[p..p + k]) && AllDigits(s[p + k + 2..p + k + 2 + m])
    requires s[p + k] == '_' && s[p + k + 1] == 'c'
    requires p + k + 2 + m < |s| ==> !IsDigit(s[p + k + 2 + m])
    ensures DigitRun(s, p) == k && DigitRun(s, p + k + 2) == m
    ensures MatchAt(s, p)
  {
    SliceDigits(s, p, k);
    SliceDigits(s, p + k + 2, m);
    DigitRunIs(s, p, k);
    DigitRunIs(s, p + k + 2, m);
  }

  lemma SliceDigits(s: string, i: nat, k: nat)
    requires i + k <= |s| && AllDigits(s[i..i + k])
    ensures forall j :: i <= j < i + k ==> IsDigit(s[j])
  {
    forall j | i <= j < i + k ensures IsDigit(s[j]) {
      assert s[j] == s[i..i + k][j - i];
    }
  }

  /** PersonX file names `<dir>/<pid>_c<cam><rest>` parse back to the pid and
      the camera they spell, when the directory part is quiet and the rest
      does not continue the camera digits. */
  lemma ParseLabelledName(prefix: string, ds: string, cs: string, rest: string)
    requires QuietPrefix(prefix)
    requires |ds| > 0 && AllDigits(ds) && |cs| > 0 && AllDigits(cs)
    requires |rest| == 0 || !IsDigit(rest[0])
    ensures ParseName(prefix + ds + "_c" + cs + rest) == Some((DigitsValue(ds), DigitsValue(cs)))
  {
    LabelledNameLayout(prefix, ds, cs, rest);
    ParseSpelled(prefix + ds + "_c" + cs + rest, prefix, ds, cs);
  }

  lemma LabelledNameLayout(prefix: string, ds: string, cs: string, rest: string)
    ensures var s := prefix + ds + "_c" + cs + rest;
      var p, c := |prefix|, |prefix| + |ds| + 2;
      && s[..p] == prefix && s[p..p + |ds|] == ds
      && s[p + |ds|] == '_' && s[p + |ds| + 1] == 'c'
      && s[c..c + |cs|] == cs
      && (c + |cs| < |s| ==> s[c + |cs|] == rest[0])
  {
  }
}

/**
 * `parse_github_pr_url`: an unanchored search for the pattern
 * `github\.com/([^/]+)/([^/]+)/pull/(\d+)`, and the inverse the UI uses to
 * turn a stored row back into a link (`buildUrlFromPr`).
 */
module PrUrl {
  import opened Wrappers
  import opened Decimal
  import opened PrTypes

  const Host: string := "github.com/"
  const PullSegment: string := "/pull/"
  const Scheme: string := "https://"

  /** The search's answer: owner, repository and the captured digits, as three strings. */
  type Captures = (string, string, string)

  /**
   * Rust's `\d` also matches non-ASCII decimal digits; the model reads `\d`
   * as `[0-9]` and is stated for ASCII input only.
   */
  predicate IsAscii(s: string) {
    forall i :: 0 <= i < |s| ==> s[i] as int < 128
  }

  predicate NoSlash(s: string) {
    forall i :: 0 <= i < |s| ==> s[i] != '/'
  }

  /** What the owner and repository groups can hold: `[^/]+`. */
  predicate WellFormedName(s: string) {
    s != [] && NoSlash(s)
  }

  /** What the three capture groups can hold: `[^/]+`, `[^/]+`, `\d+`. */
  predicate WellFormed(c: Captures) {
    && WellFormedName(c.0)
    && WellFormedName(c.1)
    && c.2 != [] && IsDigits(c.2)
  }

  predicate HasAt(s: string, i: nat, w: string) {
    i + |w| <= |s| && s[i..i + |w|] == w
  }

  /** The text the pattern matches for the given captures. */
  function Matched(c: Captures): string {
    Host + c.0 + "/" + c.1 + PullSegment + c.2
  }

  /**
   * Reference reading of the pattern, independent of how the search runs: the
   * pattern matches at position `k` with captures `c` when the text from `k`
   * on reads `github.com/`, the owner, `/`, the repository, `/pull/` and the
   * digits, and the digit group cannot be extended.
   */
  predicate MatchesAt(s: string, k: nat, c: Captures) {
    var a := k + |Host|;
    var b := a + |c.0|;
    var d := b + 1 + |c.1|;
    var e := d + |PullSegment|;
    var f := e + |c.2|;
    && WellFormed(c)
    && f <= |s|
    && s[k..a] == Host
    && s[a..b] == c.0
    && s[b] == '/'
    && s[b + 1..d] == c.1
    && s[d..e] == PullSegment
    && s[e..f] == c.2
    && (f == |s| || !IsDigit(s[f]))
  }

  /** End of the longest run of characters other than '/' starting at `i`. */
  function NonSlashEnd(s: string, i: nat): (j: nat)
    requires i <= |s|
    ensures i <= j <= |s|
    ensures forall m :: i <= m < j ==> s[m] != '/'
    ensures j < |s| ==> s[j] == '/'
    decreases |s| - i
  {
    if i == |s| || s[i] == '/' then i else NonSlashEnd(s, i + 1)
  }

  /** End of the longest run of digits starting at `i`. */
  function DigitEnd(s: string, i: nat): (j: nat)
    requires i <= |s|
    ensures i <= j <= |s|
    ensures forall m :: i <= m < j ==> IsDigit(s[m])
    ensures j < |s| ==> !IsDigit(s[j])
    decreases |s| - i
  {
    if i == |s| || !IsDigit(s[i]) then i else DigitEnd(s, i + 1)
  }

  /** The pattern tried at one start position: greedy groups, no other choice possible. */
  function MatchAt(s: string, i: nat): Option<Captures>
    requires i <= |s|
  {
    if !HasAt(s, i, Host) then None
    else
      var a := i + |Host|;
      var b := NonSlashEnd(s, a);
      if b == a || b == |s| then None
      else
        var c := NonSlashEnd(s, b + 1);
        if c == b + 1 || !HasAt(s, c, PullSegment) then None
        else
          var d := c + |PullSegment|;
          var e := DigitEnd(s, d);
          if e == d then None
          else
            Some((s[a..b], s[b + 1..c], s[d..e]))
  }

  /** What the attempt at `i` finds is a match of the reference reading at `i`. */
  lemma MatchAtSound(s: string, i: nat, c: Captures)
    requires i <= |s| && MatchAt(s, i) == Some(c)
    ensures MatchesAt(s, i, c)
  {
    var a := i + |Host|;
    assert HasAt(s, i, Host);
    var b := NonSlashEnd(s, a);
    assert a < b < |s|;
    var d := NonSlashEnd(s, b + 1);
    assert b + 1 < d && HasAt(s, d, PullSegment);
    var e := d + |PullSegment|;
    var f := DigitEnd(s, e);
    assert e < f;
    MatchAtFromEnds(s, i, b, d, f);
    NoSlashSlice(s, a, b);
    NoSlashSlice(s, b + 1, d);
    DigitsSlice(s, e, f);
    MatchesAtSlices(s, i, b, d, f);
  }

  /** The reference reading, for captures that are slices of the text. */
  lemma MatchesAtSlices(s: string, k: nat, b: nat, d: nat, f: nat)
    requires k + |Host| < b < d - 1 && d + |PullSegment| < f <= |s|
    requires s[k..k + |Host|] == Host && s[b] == '/' && s[d..d + |PullSegment|] == PullSegment
    requires NoSlash(s[k + |Host|..b]) && NoSlash(s[b + 1..d]) && IsDigits(s[d + |PullSegment|..f])
    requires f == |s| || !IsDigit(s[f])
    ensures MatchesAt(s, k, (s[k + |Host|..b], s[b + 1..d], s[d + |PullSegment|..f]))
  {
  }

  lemma NoSlashSlice(s: string, i: nat, j: nat)
    requires i <= j <= |s| && forall m :: i <= m < j ==> s[m] != '/'
    ensures NoSlash(s[i..j])
  {
    forall m | 0 <= m < j - i ensures s[i..j][m] != '/' {
      assert s[i..j][m] == s[i + m];
    }
  }

  lemma DigitsSlice(s: string, i: nat, j: nat)
    requires i <= j <= |s| && forall m :: i <= m < j ==> IsDigit(s[m])
    ensures IsDigits(s[i..j])
  {
    forall m | 0 <= m < j - i ensures IsDigit(s[i..j][m]) {
      assert s[i..j][m] == s[i + m];
    }
  }

  /** Whenever the reference reading matches at `k`, the search's attempt at `k` finds exactly those captures. */
  lemma MatchAtComplete(s: string, k: nat, c: Captures)
    requires MatchesAt(s, k, c)
    ensures MatchAt(s, k) == Some(c)
  {
    var a := k + |Host|;
    var b := a + |c.0|;
    var d := b + 1 + |c.1|;
    var e := d + |PullSegment|;
    var f := e + |c.2|;
    assert HasAt(s, k, Host);
    NonSlashEndAt(s, a, b);
    NonSlashEndAt(s, b + 1, d);
    assert HasAt(s, d, PullSegment);
    DigitEndAt(s, e, f);
    MatchAtFromEnds(s, k, b, d, f);
  }

  /** `MatchAt` once the three group ends are known. */
  lemma MatchAtFromEnds(s: string, k: nat, b: nat, d: nat, f: nat)
    requires k + |Host| < b < |s| && HasAt(s, k, Host) && NonSlashEnd(s, k + |Host|) == b
    requires b + 1 < d <= |s| && NonSlashEnd(s, b + 1) == d && HasAt(s, d, PullSegment)
    requires d + |PullSegment| < f <= |s| && DigitEnd(s, d + |PullSegment|) == f
    ensures MatchAt(s, k) == Some((s[k + |Host|..b], s[b + 1..d], s[d + |PullSegment|..f]))
  {
  }

  lemma NonSlashEndAt(s: string, i: nat, j: nat)
    requires i <= j <= |s| && NoSlash(s[i..j]) && (j < |s| ==> s[j] == '/')
    ensures NonSlashEnd(s, i) == j
  {
  }

  lemma DigitEndAt(s: string, i: nat, j: nat)
    requires i <= j <= |s| && IsDigits(s[i..j]) && (j < |s| ==> !IsDigit(s[j]))
    ensures DigitEnd(s, i) == j
  {
  }

  /** Leftmost-start search: the first position where the pattern matches wins. */
  function FindFrom(s: string, i: nat): (r: Option<Captures>)
    requires i <= |s|
    ensures r.Some? ==> exists k :: i <= k <= |s| && MatchesAt(s, k, r.value)
    ensures r.None? ==> forall k :: i <= k <= |s| ==> MatchAt(s, k).None?
    ensures r.Some? ==> WellFormed(r.value)
    decreases |s| - i
  {
    match MatchAt(s, i)
    case Some(caps) => MatchAtSound(s, i, caps); Some(caps)
    case None => if i == |s| then None else FindFrom(s, i + 1)
  }

  /**
   * `parse_github_pr_url`: `Some` exactly when the pattern matches somewhere in
   * `url`, and then the captures are well formed and matched at the leftmost
   * position where the pattern matches at all.
   */
  function ParseGithubPrUrl(url: string): (r: Option<Captures>)
    requires IsAscii(url)
    ensures r.Some? ==> WellFormed(r.value)
    ensures r.Some? ==> exists k: nat ::
      && k <= |url| && MatchesAt(url, k, r.value)
      && forall j: nat, c :: j < k ==> !MatchesAt(url, j, c)
    ensures r.None? <==> forall k: nat, c :: k <= |url| ==> !MatchesAt(url, k, c)
  {
    var r := FindFrom(url, 0);
    if r.None? then NoMatchAnywhere(url); r else LeftmostMatch(url); r
  }

  /** The search from `i` answers with the attempt at the first position from `i` on where one succeeds. */
  lemma {:induction false} FindFromLeftmost(s: string, i: nat)
    requires i <= |s| && FindFrom(s, i).Some?
    ensures exists k ::
      && i <= k <= |s| && MatchAt(s, k) == FindFrom(s, i)
      && forall j :: i <= j < k ==> MatchAt(s, j).None?
    decreases |s| - i
  {
    if MatchAt(s, i).None? {
      assert i < |s|;
      assert FindFrom(s, i) == FindFrom(s, i + 1);
      FindFromLeftmost(s, i + 1);
      var k :| i + 1 <= k <= |s| && MatchAt(s, k) == FindFrom(s, i + 1)
        && forall j :: i + 1 <= j < k ==> MatchAt(s, j).None?;
      NoMatchBefore(s, i, k);
      assert MatchAt(s, k) == FindFrom(s, i);
    } else {
      assert MatchAt(s, i) == FindFrom(s, i);
    }
  }

  /** A failed attempt at `i` extends a match-free stretch that starts at `i + 1`. */
  lemma NoMatchBefore(s: string, i: nat, k: nat)
    requires i < k <= |s| && MatchAt(s, i).None?
    requires forall j :: i + 1 <= j < k ==> MatchAt(s, j).None?
    ensures forall j :: i <= j < k ==> MatchAt(s, j).None?
  {
  }

  /** The search's answer is matched at a position before which nothing matches. */
  lemma LeftmostMatch(s: string)
    requires FindFrom(s, 0).Some?
    ensures exists k: nat ::
      && k <= |s| && MatchesAt(s, k, FindFrom(s, 0).value)
      && forall j: nat, c :: j < k ==> !MatchesAt(s, j, c)
  {
    var r := FindFrom(s, 0);
    FindFromLeftmost(s, 0);
    var k :| 0 <= k <= |s| && MatchAt(s, k) == r && forall j :: 0 <= j < k ==> MatchAt(s, j).None?;
    MatchAtSound(s, k, r.value);
    forall j: nat, c | j < k ensures !MatchesAt(s, j, c) {
      if MatchesAt(s, j, c) {
        MatchAtComplete(s, j, c);
      }
    }
  }

  lemma NoMatchAnywhere(s: string)
    requires FindFrom(s, 0).None?
    ensures forall k: nat, c :: k <= |s| ==> !MatchesAt(s, k, c)
  {
    forall k: nat, c | k <= |s| ensures !MatchesAt(s, k, c) {
      if MatchesAt(s, k, c) {
        MatchAtComplete(s, k, c);
      }
    }
  }

  /** `buildUrlFromPr` in the UI: the link shown for a stored row. */
  function BuildUrl(owner: string, repo: string, number: string): string {
    Scheme + Host + owner + "/" + repo + PullSegment + number
  }

  /**
   * 2^53 - 1, JavaScript's `Number.MAX_SAFE_INTEGER`: the UI receives the
   * number as a JavaScript number, exact for every integer up to 2^53.
   */
  const MaxSafeInteger: int := 0x1F_FFFF_FFFF_FFFF

  function BuildUrlFromPr(pr: PullRequestModel): string {
    BuildUrl(pr.owner, pr.repo, Digits(pr.prNumber as nat))
  }

  lemma SkipNonMatches(s: string, i: nat, j: nat)
    requires i <= j <= |s|
    requires forall k :: i <= k < j ==> MatchAt(s, k).None?
    ensures FindFrom(s, i) == FindFrom(s, j)
    decreases j - i
  {
    if i < j {
      assert MatchAt(s, i).None?;
      assert FindFrom(s, i) == FindFrom(s, i + 1);
      SkipNonMatches(s, i + 1, j);
    }
  }

  /** A slice inside the left part of a concatenation. */
  lemma SliceLeft(x: string, y: string, i: nat, j: nat)
    requires i <= j <= |x|
    ensures (x + y)[i..j] == x[i..j]
  {
  }

  /** A slice inside the right part of a concatenation. */
  lemma SliceRight(x: string, y: string, i: nat, j: nat)
    requires i <= j <= |y|
    ensures (x + y)[|x| + i..|x| + j] == y[i..j]
  {
  }

  /** `Matched(c)` as the concatenation it is, grouped from the left. */
  lemma MatchedParts(c: Captures)
    ensures Matched(c) == (((Host + c.0) + "/") + c.1 + PullSegment) + c.2
  {
  }

  /** Where `Matched(c)` follows `pre`, `github.com/` comes first. */
  lemma HostAfterPrefix(pre: string, c: Captures)
    ensures var s := pre + Matched(c);
      |s| == |pre| + |Host| + |c.0| + 1 + |c.1| + |PullSegment| + |c.2|
      && s[|pre|..|pre| + |Host|] == Host
  {
    var m1 := Host + c.0;
    var m2 := m1 + "/";
    var m3 := m2 + c.1;
    var m4 := m3 + PullSegment;
    MatchedParts(c);
    SliceRight(pre, m4 + c.2, 0, |Host|);
    SliceLeft(m4, c.2, 0, |Host|);
    SliceLeft(m3, PullSegment, 0, |Host|);
    SliceLeft(m2, c.1, 0, |Host|);
    SliceLeft(m1, "/", 0, |Host|);
    SliceLeft(Host, c.0, 0, |Host|);
    assert Host[0..|Host|] == Host;
  }

  /** Then the owner and its '/'. */
  lemma OwnerAfterPrefix(pre: string, c: Captures)
    ensures var s := pre + Matched(c);
      var a := |pre| + |Host|;
      a + |c.0| < |s| && s[a..a + |c.0|] == c.0 && s[a + |c.0|] == '/'
  {
    var m1 := Host + c.0;
    var m2 := m1 + "/";
    var m3 := m2 + c.1;
    var m4 := m3 + PullSegment;
    MatchedParts(c);
    SliceRight(pre, m4 + c.2, |Host|, |m1|);
    SliceLeft(m4, c.2, |Host|, |m1|);
    SliceLeft(m3, PullSegment, |Host|, |m1|);
    SliceLeft(m2, c.1, |Host|, |m1|);
    SliceLeft(m1, "/", |Host|, |m1|);
    SliceRight(Host, c.0, 0, |c.0|);
    assert c.0[0..|c.0|] == c.0;
    assert (pre + (m4 + c.2))[|pre| + |m1|] == m4[|m1|] == m3[|m1|] == m2[|m1|] == '/';
  }

  /** Then the repository. */
  lemma RepoAfterPrefix(pre: string, c: Captures)
    ensures var s := pre + Matched(c);
      var b := |pre| + |Host| + |c.0| + 1;
      b + |c.1| <= |s| && s[b..b + |c.1|] == c.1
  {
    var m2 := Host + c.0 + "/";
    var m3 := m2 + c.1;
    var m4 := m3 + PullSegment;
    MatchedParts(c);
    SliceRight(pre, m4 + c.2, |m2|, |m3|);
    SliceLeft(m4, c.2, |m2|, |m3|);
    SliceLeft(m3, PullSegment, |m2|, |m3|);
    SliceRight(m2, c.1, 0, |c.1|);
    assert c.1[0..|c.1|] == c.1;
  }

  /** Then `/pull/` and the digits, which run to the end. */
  lemma NumberAfterPrefix(pre: string, c: Captures)
    ensures var s := pre + Matched(c);
      var d := |pre| + |Host| + |c.0| + 1 + |c.1|;
      var e := d + |PullSegment|;
      e + |c.2| == |s| && s[d..e] == PullSegment && s[e..e + |c.2|] == c.2
  {
    var m3 := Host + c.0 + "/" + c.1;
    var m4 := m3 + PullSegment;
    MatchedParts(c);
    SliceRight(pre, m4 + c.2, |m3|, |m4|);
    SliceLeft(m4, c.2, |m3|, |m4|);
    SliceRight(m3, PullSegment, 0, |PullSegment|);
    assert PullSegment[0..|PullSegment|] == PullSegment;
    SliceRight(pre, m4 + c.2, |m4|, |m4| + |c.2|);
    SliceRight(m4, c.2, 0, |c.2|);
    assert c.2[0..|c.2|] == c.2;
  }

  /** The reference reading matches `Matched(c)` wherever it is placed. */
  lemma MatchesAfterPrefix(pre: string, c: Captures)
    requires WellFormed(c)
    ensures MatchesAt(pre + Matched(c), |pre|, c)
  {
    HostAfterPrefix(pre, c);
    OwnerAfterPrefix(pre, c);
    RepoAfterPrefix(pre, c);
    NumberAfterPrefix(pre, c);
  }

  lemma AsciiConcat(x: string, y: string)
    requires IsAscii(x) && IsAscii(y)
    ensures IsAscii(x + y)
  {
    forall i | 0 <= i < |x + y| ensures (x + y)[i] as int < 128 {
      if i >= |x| {
        assert (x + y)[i] == y[i - |x|];
      }
    }
  }

  /** No match can start inside `https://`: none of its characters is a 'g'. */
  lemma NoMatchInScheme(pre: string, rest: string)
    requires pre == Scheme
    ensures forall k :: 0 <= k < |pre| ==> MatchAt(pre + rest, k).None?
  {
    var s := pre + rest;
    forall k | 0 <= k < |pre| ensures !HasAt(s, k, Host) {
      assert s[k] == pre[k] != Host[0];
      if k + |Host| <= |s| {
        assert s[k..k + |Host|][0] == s[k];
      }
    }
  }

  /** Parsing the link built from owner, repository and digits gives them back exactly. */
  lemma {:induction false} ParseBuildUrl(owner: string, repo: string, number: string)
    requires WellFormed((owner, repo, number))
    requires IsAscii(owner) && IsAscii(repo)
    ensures IsAscii(BuildUrl(owner, repo, number))
    ensures ParseGithubPrUrl(BuildUrl(owner, repo, number)) == Some((owner, repo, number))
  {
    var c := (owner, repo, number);
    var s := BuildUrl(owner, repo, number);
    assert IsAscii(number);
    AsciiConcat(Scheme, Host);
    AsciiConcat(Scheme + Host, owner);
    AsciiConcat(Scheme + Host + owner, "/");
    AsciiConcat(Scheme + Host + owner + "/", repo);
    AsciiConcat(Scheme + Host + owner + "/" + repo, PullSegment);
    AsciiConcat(Scheme + Host + owner + "/" + repo + PullSegment, number);
    assert s == Scheme + Matched(c);
    NoMatchInScheme(Scheme, Matched(c));
    SkipNonMatches(s, 0, |Scheme|);
    MatchesAfterPrefix(Scheme, c);
    MatchAtComplete(s, |Scheme|, c);
  }

  /** The UI's link for a stored row parses back to its owner, repository and number. */
  lemma ParseBuildUrlFromPr(pr: PullRequestModel)
    requires WellFormedName(pr.owner) && WellFormedName(pr.repo)
    requires IsAscii(pr.owner) && IsAscii(pr.repo)
    requires pr.prNumber as int <= MaxSafeInteger + 1
    ensures IsAscii(BuildUrlFromPr(pr))
    ensures ParseGithubPrUrl(BuildUrlFromPr(pr)) == Some((pr.owner, pr.repo, Digits(pr.prNumber as nat)))
    ensures Value(Digits(pr.prNumber as nat)) == pr.prNumber as nat
  {
    ParseBuildUrl(pr.owner, pr.repo, Digits(pr.prNumber as nat));
    ValueOfDigits(pr.prNumber as nat);
  }
}

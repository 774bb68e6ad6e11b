/**
 * The query-string test run on page load: the regular expression `(^|&)open=([^&]*)(&|$)`
 * with the `i` flag, matched against `location.search.substr(1)`, and the captured second
 * group.  `RegexSearch` follows the regex engine's leftmost match position by position;
 * `FirstOpenValue (Split q)` is an independent description through the `&`-separated
 * segments, and `RegexIsFirstSegment` proves the two agree on every query.
 */
module Query {

  import opened Wrappers

  /**
   * Case folding for the letters of `open`.  Without the `u` flag the `i` flag folds by
   * upper-casing and never maps a non-ASCII character onto an ASCII one, so only `A`-`Z`
   * and `a`-`z` are affected here.
   */
  function Lower(c: char): char {
    if 'A' <= c <= 'Z' then (c as int + 32) as char else c
  }

  /** `open=` starts at position `i` of `q`, its letters in any case. */
  predicate KeyAt(q: string, i: nat) {
    && i + 5 <= |q|
    && Lower(q[i]) == 'o' && Lower(q[i + 1]) == 'p' && Lower(q[i + 2]) == 'e'
    && Lower(q[i + 3]) == 'n' && q[i + 4] == '='
  }

  /** Where the greedy run `[^&]*` that starts at `j` stops: the next `&`, or the end. */
  function ValueEnd(q: string, j: nat): (e: nat)
    requires j <= |q|
    ensures j <= e <= |q|
    ensures forall k :: j <= k < e ==> q[k] != '&'
    ensures e == |q| || q[e] == '&'
    decreases |q| - j
  {
    if j == |q| || q[j] == '&' then j else ValueEnd(q, j + 1)
  }

  /** The run `[^&]*` starting at `j`. */
  function ValueAt(q: string, j: nat): string
    requires j <= |q|
  {
    q[j..ValueEnd(q, j)]
  }

  /**
   * The regex tried at position `p`: first the alternative `^` (only at 0), then `&`; then
   * `open=` and the greedy group 2.  The run stops at `&` or at the end, so the closing
   * group `(&|$)` always matches and no backtracking happens.
   */
  function MatchAt(q: string, p: nat): Option<string>
    requires p <= |q|
  {
    if p == 0 && KeyAt(q, 0) then Some(ValueAt(q, 5))
    else if p < |q| && q[p] == '&' && KeyAt(q, p + 1) then Some(ValueAt(q, p + 6))
    else None
  }

  /** The leftmost match at or after `p`, as group 2 of `String.prototype.match`. */
  function RegexSearch(q: string, p: nat): Option<string>
    decreases |q| - p
  {
    if p > |q| then None
    else if MatchAt(q, p).Some? then MatchAt(q, p)
    else RegexSearch(q, p + 1)
  }

  /** `search.substr(1)`: the query without its leading `?` (and "" stays ""). */
  function QueryString(search: string): string {
    if |search| == 0 then "" else search[1..]
  }

  /** The value of the `open` parameter as the page reads it, or None when the regex fails. */
  function OpenParam(search: string): Option<string> {
    RegexSearch(QueryString(search), 0)
  }

  /** `q.split("&")`. */
  function Split(q: string): (segs: seq<string>)
    ensures |segs| >= 1
    ensures forall k :: 0 <= k < |segs| ==> '&' !in segs[k]
    decreases |q|
  {
    var i := ValueEnd(q, 0);
    if i == |q| then [q] else [q[..i]] + Split(q[i + 1..])
  }

  /** `segs.join("&")`. */
  function Join(segs: seq<string>): string
    requires |segs| >= 1
  {
    if |segs| == 1 then segs[0] else segs[0] + "&" + Join(segs[1..])
  }

  /** The value of the first segment whose key is `open`, in any case. */
  function FirstOpenValue(segs: seq<string>): Option<string> {
    if segs == [] then None
    else if KeyAt(segs[0], 0) then Some(segs[0][5..])
    else FirstOpenValue(segs[1..])
  }

  /** The run that starts at `j` ends at the one place that has no `&` before it and `&` or the end at it. */
  lemma ValueEndUnique(q: string, j: nat, e: nat)
    requires j <= e <= |q|
    requires forall k :: j <= k < e ==> q[k] != '&'
    requires e == |q| || q[e] == '&'
    ensures ValueEnd(q, j) == e
  {
  }

  /** `Split` loses no characters: joining the segments again gives back the query. */
  lemma {:induction false} JoinSplit(q: string)
    ensures Join(Split(q)) == q
    decreases |q|
  {
    var i := ValueEnd(q, 0);
    if i < |q| {
      JoinSplit(q[i + 1..]);
      assert q == q[..i] + "&" + q[i + 1..];
    }
  }

  /** `Split` undoes `Join` on segments that contain no `&`. */
  lemma {:induction false} SplitJoin(segs: seq<string>)
    requires |segs| >= 1
    requires forall k :: 0 <= k < |segs| ==> '&' !in segs[k]
    ensures Split(Join(segs)) == segs
    decreases |segs|
  {
    var s := segs[0];
    if |segs| == 1 {
      ValueEndUnique(s, 0, |s|);
    } else {
      var rest := Join(segs[1..]);
      var q := s + "&" + rest;
      assert forall k :: 0 <= k < |s| ==> q[k] == s[k];
      ValueEndUnique(q, 0, |s|);
      assert q[..|s|] == s;
      assert q[|s| + 1..] == rest;
      SplitJoin(segs[1..]);
    }
  }

  /** Position `j` starts a segment: the beginning of the query, or just after an `&`. */
  ghost predicate SegmentStart(q: string, j: nat) {
    j == 0 || (0 < j <= |q| && q[j - 1] == '&')
  }

  /** The value at the first segment start at or after `j` whose key is `open`. */
  ghost function SegmentSearch(q: string, j: nat): Option<string>
    decreases |q| - j
  {
    if j > |q| then None
    else if SegmentStart(q, j) && KeyAt(q, j) then Some(ValueAt(q, j + 5))
    else SegmentSearch(q, j + 1)
  }

  /** Past the start, the regex at position `p` is a segment test at `p + 1`. */
  lemma {:induction false} RegexFromSegmentSearch(q: string, p: nat)
    requires 1 <= p
    ensures RegexSearch(q, p) == SegmentSearch(q, p + 1)
    decreases |q| - p
  {
    if p <= |q| {
      RegexFromSegmentSearch(q, p + 1);
    }
  }

  lemma RegexIsSegmentSearch(q: string)
    ensures RegexSearch(q, 0) == SegmentSearch(q, 0)
  {
    RegexFromSegmentSearch(q, 1);
  }

  /** Positions with no `&` just before them are not segment starts and can be skipped. */
  lemma {:induction false} SkipInsideSegment(q: string, j: nat, e: nat)
    requires 1 <= j <= e <= |q| + 1
    requires forall k :: j - 1 <= k < e - 1 ==> q[k] != '&'
    ensures SegmentSearch(q, j) == SegmentSearch(q, e)
    decreases e - j
  {
    if j < e {
      SkipInsideSegment(q, j + 1, e);
    }
  }

  lemma ValueEndShift(q: string, k: nat, j: nat)
    requires k + j <= |q|
    ensures ValueEnd(q, k + j) == k + ValueEnd(q[k..], j)
  {
  }

  /** After an `&` at `k - 1`, the search on the rest of the query is the same search. */
  lemma {:induction false} SegmentSearchShift(q: string, k: nat, j: nat)
    requires 1 <= k <= |q| && q[k - 1] == '&'
    ensures SegmentSearch(q, k + j) == SegmentSearch(q[k..], j)
    decreases |q| - k - j
  {
    var r := q[k..];
    if k + j <= |q| {
      assert SegmentStart(q, k + j) <==> SegmentStart(r, j);
      assert KeyAt(q, k + j) <==> KeyAt(r, j);
      if KeyAt(q, k + j) {
        ValueEndShift(q, k, j + 5);
        assert ValueAt(q, k + j + 5) == ValueAt(r, j + 5);
      }
      SegmentSearchShift(q, k, j + 1);
    }
  }

  lemma {:induction false} SegmentSearchIsSplit(q: string)
    ensures SegmentSearch(q, 0) == FirstOpenValue(Split(q))
    decreases |q|
  {
    var i := ValueEnd(q, 0);
    assert Lower('&') == '&';
    if i == |q| {
      assert Split(q) == [q];
      if KeyAt(q, 0) {
        ValueEndUnique(q, 5, |q|);
        assert ValueAt(q, 5) == q[5..];
      } else {
        SkipInsideSegment(q, 1, |q| + 1);
      }
    } else {
      var head := q[..i];
      assert Split(q) == [head] + Split(q[i + 1..]);
      assert KeyAt(q, 0) <==> KeyAt(head, 0);
      if KeyAt(q, 0) {
        ValueEndUnique(q, 5, i);
      } else {
        SkipInsideSegment(q, 1, i + 1);
        SegmentSearchShift(q, i + 1, 0);
        SegmentSearchIsSplit(q[i + 1..]);
      }
    }
  }

  /**
   * The regex captures the value of the first `&`-separated segment whose key is `open`
   * (letters in any case), and fails exactly when no segment has that key.
   */
  lemma RegexIsFirstSegment(q: string)
    ensures RegexSearch(q, 0) == FirstOpenValue(Split(q))
  {
    RegexIsSegmentSearch(q);
    SegmentSearchIsSplit(q);
  }

  /** Only the first `open` parameter is read: `?open=false&open=true` yields "false". */
  lemma FirstOpenWins()
    ensures OpenParam("?open=false&open=true") == Some("false")
  {
    var q := "open=false&open=true";
    assert QueryString("?open=false&open=true") == q;
    SplitJoin(["open=false", "open=true"]);
    assert Join(["open=false", "open=true"]) == q;
    RegexIsFirstSegment(q);
  }

  /** The key is matched in any case, the value exactly. */
  lemma KeyCaseValueExact()
    ensures OpenParam("?OPEN=true") == Some("true")
    ensures OpenParam("?open=TRUE") == Some("TRUE")
  {
    assert QueryString("?OPEN=true") == "OPEN=true";
    assert QueryString("?open=TRUE") == "open=TRUE";
    RegexIsFirstSegment("OPEN=true");
    RegexIsFirstSegment("open=TRUE");
  }

  /** A key that merely ends in `open` is not the parameter. */
  lemma OtherKeyIgnored()
    ensures OpenParam("?reopen=true") == None
  {
  }

}

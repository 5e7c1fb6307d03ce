/**
 * `urlJoin` from lib/utils.js: joins URL path parts with `/`.
 *
 * Each present argument loses at most one `/` at its front and at most one
 * at its back; arguments that are absent or empty after that are dropped; the
 * rest are joined with `/`. A `/` goes in front of the result when the first
 * argument is present, non-empty and starts with `/`. Arguments are modelled
 * as `Option<string>`, with `None` standing for `undefined` or `null`.
 */
module Utils {
  import opened Wrappers

  predicate StartsWithSlash(s: string) {
    |s| > 0 && s[0] == '/'
  }

  predicate EndsWithSlash(s: string) {
    |s| > 0 && s[|s| - 1] == '/'
  }

  /** The slash-stripping pattern (a `/` at the start, or a `/` at the end) matches the character at position `p`. */
  predicate MatchesAt(s: string, p: nat)
    requires p < |s|
  {
    s[p] == '/' && (p == 0 || p == |s| - 1)
  }

  /**
   * Reference reading of the global replace of that pattern by "": scan left to right,
   * dropping every character the pattern matches and keeping the others.
   */
  function RegexReplaceFrom(s: string, p: nat): (r: string)
    requires p <= |s|
    decreases |s| - p
  {
    if p == |s| then ""
    else (if MatchesAt(s, p) then "" else [s[p]]) + RegexReplaceFrom(s, p + 1)
  }

  function RegexReplace(s: string): string {
    RegexReplaceFrom(s, 0)
  }

  /**
   * Removes at most one `/` at the front and at most one at the back.
   * A lone `/` is one match, so it becomes "".
   */
  function Strip(s: string): (r: string)
    // only slashes are removed, at most one at each end
    ensures r == s || "/" + r == s || r + "/" == s || "/" + r + "/" == s
    // a part without an edge slash is unchanged
    ensures !StartsWithSlash(s) && !EndsWithSlash(s) ==> r == s
    // an edge slash is always removed, and both are when they are distinct
    ensures StartsWithSlash(s) || EndsWithSlash(s) ==> |r| < |s|
    ensures StartsWithSlash(s) && EndsWithSlash(s) && |s| >= 2 ==> |r| == |s| - 2
  {
    var t := if StartsWithSlash(s) then s[1..] else s;
    if EndsWithSlash(t) then t[..|t| - 1] else t
  }

  /** Positions strictly between the ends are never matched, so they are kept. */
  lemma {:induction false} RegexKeepsMiddle(s: string, p: nat)
    requires 1 <= p <= |s| - 1
    ensures RegexReplaceFrom(s, p) == s[p..|s| - 1] + RegexReplaceFrom(s, |s| - 1)
    decreases |s| - p
  {
    if p < |s| - 1 {
      RegexKeepsMiddle(s, p + 1);
      assert s[p..|s| - 1] == [s[p]] + s[p + 1..|s| - 1];
    }
  }

  /** For two or more characters, the replacement keeps the middle and each end that is not `/`. */
  lemma RegexReplaceEnds(s: string)
    requires |s| >= 2
    ensures RegexReplace(s) == (if s[0] == '/' then "" else [s[0]]) + s[1..|s| - 1]
                               + (if s[|s| - 1] == '/' then "" else [s[|s| - 1]])
  {
    RegexKeepsMiddle(s, 1);
    assert RegexReplaceFrom(s, |s|) == "";
  }

  /** For two or more characters, `Strip` keeps the middle and each end that is not `/`. */
  lemma StripEnds(s: string)
    requires |s| >= 2
    ensures Strip(s) == (if s[0] == '/' then "" else [s[0]]) + s[1..|s| - 1]
                        + (if s[|s| - 1] == '/' then "" else [s[|s| - 1]])
  {
    var n := |s|;
    var head := if s[0] == '/' then "" else [s[0]];
    assert s == s[..1] + s[1..n - 1] + s[n - 1..];
    assert s[..1] == [s[0]] && s[n - 1..] == [s[n - 1]];
    var t := if s[0] == '/' then s[1..] else s;
    assert t == head + s[1..n - 1] + [s[n - 1]];
    if s[n - 1] == '/' {
      assert t[..|t| - 1] == head + s[1..n - 1];
    }
  }

  /** `Strip` agrees with the global regular-expression replacement on every string. */
  lemma {:induction false} StripIsRegexReplace(s: string)
    ensures Strip(s) == RegexReplace(s)
  {
    if |s| == 1 {
      assert RegexReplaceFrom(s, 1) == "";
    } else if |s| >= 2 {
      RegexReplaceEnds(s);
      StripEnds(s);
    }
  }

  /** Exactly one slash goes at each end: `"//a//"` contributes `"/a/"`. */
  lemma StripOneSlashEachEnd(t: string)
    ensures Strip("/" + t + "/") == t
  {
  }

  /** The map step: a present argument is stripped, an absent one stays absent. */
  function Mapped(a: Option<string>): Option<string> {
    match a
    case None => None
    case Some(s) => Some(Strip(s))
  }

  /** What the filter step keeps: a present, non-empty string. */
  predicate Truthy(a: Option<string>) {
    a.Some? && a.value != ""
  }

  /** Whether argument `a` survives the map and the filter. */
  predicate Contributes(a: Option<string>) {
    Truthy(Mapped(a))
  }

  /** The stripped parts that survive the filter, in argument order. */
  function Parts(args: seq<Option<string>>): (r: seq<string>)
    ensures |r| <= |args|
    ensures forall i :: 0 <= i < |r| ==> r[i] != ""
  {
    if args == [] then []
    else
      var head := if Contributes(args[0]) then [Strip(args[0].value)] else [];
      head + Parts(args[1..])
  }

  /** No part survives exactly when no argument contributes. */
  lemma {:induction false} PartsEmpty(args: seq<Option<string>>)
    ensures Parts(args) == [] <==> forall i :: 0 <= i < |args| ==> !Contributes(args[i])
  {
    if args != [] {
      PartsEmpty(args[1..]);
      assert forall i :: 1 <= i < |args| ==> args[i] == args[1..][i - 1];
    }
  }

  /** Joins the parts with one `/` between neighbours. */
  function Join(parts: seq<string>): (r: string)
    ensures (forall i :: 0 <= i < |parts| ==> parts[i] != "") ==> (r == "" <==> parts == [])
    ensures parts != [] && parts[0] != "" ==> |r| > 0 && r[0] == parts[0][0]
  {
    if parts == [] then ""
    else if |parts| == 1 then parts[0]
    else parts[0] + "/" + Join(parts[1..])
  }

  /** The first argument is present, non-empty and starts with `/`. */
  predicate LeadingSlash(args: seq<Option<string>>) {
    |args| > 0 && args[0].Some? && StartsWithSlash(args[0].value)
  }

  /**
   * A `/` is put in front exactly when the first argument starts with one;
   * otherwise the result starts with `/` only when its first surviving part
   * does (`urlJoin(undefined, "//a")` is `"/a"`).
   */
  function UrlJoin(args: seq<Option<string>>): (r: string)
    ensures LeadingSlash(args) ==> StartsWithSlash(r)
    ensures StartsWithSlash(r) <==> LeadingSlash(args) || (Parts(args) != [] && StartsWithSlash(Parts(args)[0]))
  {
    var start := if LeadingSlash(args) then "/" else "";
    start + Join(Parts(args))
  }

  /** Filtering distributes over concatenation: parts keep argument order. */
  lemma {:induction false} PartsAppend(a: seq<Option<string>>, b: seq<Option<string>>)
    ensures Parts(a + b) == Parts(a) + Parts(b)
  {
    if a != [] {
      assert (a + b)[1..] == a[1..] + b;
      PartsAppend(a[1..], b);
    } else {
      assert a + b == b;
    }
  }

  /** Joining two non-empty lists of parts puts exactly one `/` between them. */
  lemma {:induction false} JoinAppend(a: seq<string>, b: seq<string>)
    requires a != [] && b != []
    ensures Join(a + b) == Join(a) + "/" + Join(b)
  {
    if |a| == 1 {
      assert (a + b)[1..] == b;
    } else {
      assert (a + b)[1..] == a[1..] + b;
      JoinAppend(a[1..], b);
    }
  }

  /**
   * The result is empty exactly when no leading slash is kept and no argument
   * survives stripping and filtering; in particular `urlJoin()` is "".
   */
  lemma UrlJoinEmpty(args: seq<Option<string>>)
    ensures UrlJoin(args) == "" <==>
            !LeadingSlash(args) && forall i :: 0 <= i < |args| ==> !Contributes(args[i])
  {
    PartsEmpty(args);
  }

  /** The filtered parts of a single argument. */
  lemma PartsOfOne(a: Option<string>)
    ensures Parts([a]) == if Contributes(a) then [Strip(a.value)] else []
  {
  }

  /**
   * A leading `/` on the first argument is kept exactly once: the result is
   * the one for the same argument without that slash, with `/` in front.
   */
  lemma LeadingSlashKept(t: string, rest: seq<Option<string>>)
    requires !StartsWithSlash(t)
    ensures UrlJoin([Some("/" + t)] + rest) == "/" + UrlJoin([Some(t)] + rest)
  {
  }

  /** A single part without edge slashes comes back unchanged, and `urlJoin('/')` is `/`. */
  lemma UrlJoinSinglePart(s: string)
    ensures !StartsWithSlash(s) && !EndsWithSlash(s) ==> UrlJoin([Some(s)]) == s
    ensures UrlJoin([Some("/")]) == "/"
  {
  }

  /**
   * An argument that contributes nothing (absent, empty, or only `/`) adds no
   * text and no separator, wherever it stands after the first argument.
   */
  lemma SilentArgument(pre: seq<Option<string>>, a: Option<string>, post: seq<Option<string>>)
    requires |pre| > 0 && !Contributes(a)
    ensures UrlJoin(pre + [a] + post) == UrlJoin(pre + post)
  {
    PartsOfOne(a);
    assert Parts(pre + [a] + post) == Parts(pre + post) by {
      PartsAppend(pre + [a], post);
      PartsAppend(pre, [a]);
      PartsAppend(pre, post);
      assert Parts(pre) + [] == Parts(pre);
    }
    assert LeadingSlash(pre + [a] + post) == LeadingSlash(pre + post) by {
      assert (pre + [a] + post)[0] == pre[0] == (pre + post)[0];
    }
  }

  /** Appending a surviving part adds exactly one `/` and the stripped part. */
  lemma AppendPart(args: seq<Option<string>>, a: Option<string>)
    requires Parts(args) != [] && Contributes(a)
    ensures UrlJoin(args + [a]) == UrlJoin(args) + "/" + Strip(a.value)
  {
    var start := if LeadingSlash(args) then "/" else "";
    var joined, last := Join(Parts(args)), Strip(a.value);
    JoinAppendedPart(args, a);
    assert LeadingSlash(args + [a]) == LeadingSlash(args) by {
      assert (args + [a])[0] == args[0];
    }
    assert UrlJoin(args + [a]) == start + (joined + "/" + last);
    assert start + (joined + "/" + last) == (start + joined) + "/" + last;
  }

  lemma JoinAppendedPart(args: seq<Option<string>>, a: Option<string>)
    requires Parts(args) != [] && Contributes(a)
    ensures Join(Parts(args + [a])) == Join(Parts(args)) + "/" + Strip(a.value)
  {
    PartsOfOne(a);
    PartsAppend(args, [a]);
    JoinAppend(Parts(args), [Strip(a.value)]);
  }
}

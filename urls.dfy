/**
 * URL construction (`createUrl`): the parsed server URL gets the caller's query
 * keys set over its own, and its path replaced by the template with slash runs
 * collapsed and the first `$` replaced by the channel.
 */
module Urls {
  import opened Wrappers
  import opened Text
  import opened Types

  /**
   * The parts of a parsed URL the client touches. `query` is the parsed query
   * (`url.Values`: each key with its list of values); how it is percent-encoded
   * and ordered when the URL is written out is not modelled.
   */
  datatype Url = Url(scheme: string, host: string, path: string, query: map<string, seq<string>>, fragment: string)

  // ---------------------------------------------------------------------------
  // The rewrite `regexp.MustCompile("([^:]\/)\/+").ReplaceAllString(s, "$1")`

  /** A match of `([^:]\/)\/+` starts at position `i` of `s`. */
  predicate MatchAt(s: string, i: int) {
    0 <= i && i + 2 < |s| && s[i] != ':' && s[i + 1] == '/' && s[i + 2] == '/'
  }

  /** No position of `s` starts a match, so the rewrite has nothing to replace. */
  predicate NoRedundantSlash(s: string) {
    forall i :: 0 <= i < |s| ==> !MatchAt(s, i)
  }

  /** `s` without its leading slashes: the greedy tail `\/+` of a match. */
  function DropSlashes(s: string): (r: string)
    ensures |r| <= |s|
    ensures r == [] || r[0] != '/'
  {
    if s != [] && s[0] == '/' then DropSlashes(s[1..]) else s
  }

  /**
   * Leftmost matches are replaced by their first two characters, and the scan
   * resumes after the whole match. The result starts as `s` does.
   */
  function CollapseSlashes(s: string): (r: string)
    ensures |r| <= |s|
    ensures |s| >= 1 ==> |r| >= 1 && r[0] == s[0]
    ensures |s| >= 2 ==> |r| >= 2 && (r[1] == '/' <==> s[1] == '/')
    decreases |s|
  {
    if MatchAt(s, 0) then s[..2] + CollapseSlashes(DropSlashes(s[2..]))
    else if s == [] then []
    else [s[0]] + CollapseSlashes(s[1..])
  }

  /** Putting one character in front of a string with no match adds at most a match at the front. */
  lemma NoMatchCons(c: char, y: string)
    requires NoRedundantSlash(y) && !MatchAt([c] + y, 0)
    ensures NoRedundantSlash([c] + y)
  {
    forall i | 0 < i < |[c] + y|
      ensures !MatchAt([c] + y, i)
    {
      assert !MatchAt(y, i - 1);
    }
  }

  /** At a match the rewrite keeps `c/` and goes on after the slash run. */
  lemma CollapseAtMatch(s: string)
    requires MatchAt(s, 0)
    ensures CollapseSlashes(s) == s[..2] + CollapseSlashes(DropSlashes(s[2..]))
    ensures s[..2][1] == '/'
  {
  }

  /** After the slash run the rewrite starts with no slash. */
  lemma CollapseAfterRun(t: string)
    ensures var ct := CollapseSlashes(DropSlashes(t)); ct == [] || ct[0] != '/'
  {
  }

  /** `c/` in front of a string with no match that does not start with a slash adds no match. */
  lemma NoMatchPair(p: string, y: string)
    requires |p| == 2 && p[1] == '/'
    requires NoRedundantSlash(y) && (y == [] || y[0] != '/')
    ensures NoRedundantSlash(p + y)
  {
    var x := p + y;
    forall i | 0 <= i < |x|
      ensures !MatchAt(x, i)
    {
      if i >= 2 {
        assert !MatchAt(y, i - 2);
      }
    }
  }

  /** The step of CollapseComplete at a match. */
  lemma CollapseCompleteAtMatch(s: string)
    requires MatchAt(s, 0)
    requires NoRedundantSlash(CollapseSlashes(DropSlashes(s[2..])))
    ensures NoRedundantSlash(CollapseSlashes(s))
  {
    CollapseAtMatch(s);
    CollapseAfterRun(s[2..]);
    NoMatchPair(s[..2], CollapseSlashes(DropSlashes(s[2..])));
  }

  /** The result of the rewrite cannot be rewritten any further. */
  lemma {:induction false} CollapseComplete(s: string)
    ensures NoRedundantSlash(CollapseSlashes(s))
    decreases |s|
  {
    if MatchAt(s, 0) {
      CollapseComplete(DropSlashes(s[2..]));
      CollapseCompleteAtMatch(s);
    } else if s != [] {
      CollapseComplete(s[1..]);
      NoMatchCons(s[0], CollapseSlashes(s[1..]));
    }
  }

  /** A string with nothing to rewrite is left as it is. */
  lemma {:induction false} CollapseIdentity(s: string)
    requires NoRedundantSlash(s)
    ensures CollapseSlashes(s) == s
  {
    if s != [] {
      assert !MatchAt(s, 0);
      assert forall i :: 0 <= i < |s| - 1 ==> (MatchAt(s[1..], i) <==> MatchAt(s, i + 1));
      CollapseIdentity(s[1..]);
    }
  }

  /** The rewrite changes `s` exactly when `s` holds a match. */
  lemma CollapseChanges(s: string)
    ensures CollapseSlashes(s) == s <==> NoRedundantSlash(s)
  {
    CollapseComplete(s);
    if NoRedundantSlash(s) {
      CollapseIdentity(s);
    }
  }

  /** Applying the rewrite twice is applying it once. */
  lemma CollapseIdempotent(s: string)
    ensures CollapseSlashes(CollapseSlashes(s)) == CollapseSlashes(s)
  {
    CollapseComplete(s);
    CollapseIdentity(CollapseSlashes(s));
  }

  /** `s` with every slash removed. */
  function NonSlash(s: string): (r: string)
    ensures '/' !in r
  {
    if s == [] then [] else (if s[0] == '/' then [] else [s[0]]) + NonSlash(s[1..])
  }

  lemma {:induction false} NonSlashAppend(a: string, b: string)
    ensures NonSlash(a + b) == NonSlash(a) + NonSlash(b)
  {
    if a == [] {
      assert a + b == b;
    } else {
      assert (a + b)[0] == a[0];
      assert (a + b)[1..] == a[1..] + b;
      NonSlashAppend(a[1..], b);
    }
  }

  lemma {:induction false} NonSlashDrop(s: string)
    ensures NonSlash(DropSlashes(s)) == NonSlash(s)
  {
    if s != [] && s[0] == '/' {
      NonSlashDrop(s[1..]);
    }
  }

  /** The rewrite removes slashes and nothing else: every other character survives, in order. */
  lemma {:induction false} CollapseKeepsNonSlash(s: string)
    ensures NonSlash(CollapseSlashes(s)) == NonSlash(s)
    decreases |s|
  {
    if MatchAt(s, 0) {
      CollapseKeepsNonSlash(DropSlashes(s[2..]));
      KeepsNonSlashAtMatch(s);
    } else if s != [] {
      var h, t := [s[0]], s[1..];
      assert CollapseSlashes(s) == h + CollapseSlashes(t);
      CollapseKeepsNonSlash(t);
      NonSlashAppend(h, CollapseSlashes(t));
      NonSlashAppend(h, t);
      assert s == h + t;
    }
  }

  /** The step of CollapseKeepsNonSlash at a match: the dropped characters are all slashes. */
  lemma KeepsNonSlashAtMatch(s: string)
    requires MatchAt(s, 0)
    requires NonSlash(CollapseSlashes(DropSlashes(s[2..]))) == NonSlash(DropSlashes(s[2..]))
    ensures NonSlash(CollapseSlashes(s)) == NonSlash(s)
  {
    var h, t := s[..2], DropSlashes(s[2..]);
    assert CollapseSlashes(s) == h + CollapseSlashes(t);
    NonSlashDrop(s[2..]);
    NonSlashAppend(h, CollapseSlashes(t));
    NonSlashAppend(h, s[2..]);
    assert s == h + s[2..];
  }

  // ---------------------------------------------------------------------------
  // createUrl

  /**
   * `q.Set(k, v)` for every entry of `params`: those keys hold exactly their
   * one new value, every other key of the base query keeps its values.
   */
  function SetParams(q: map<string, seq<string>>, params: map<string, string>): (r: map<string, seq<string>>)
    ensures r.Keys == q.Keys + params.Keys
    ensures forall k :: k in params ==> r[k] == [params[k]]
    ensures forall k :: k in q && k !in params ==> r[k] == q[k]
  {
    map k | k in q.Keys + params.Keys :: if k in params then [params[k]] else q[k]
  }

  /** Setting one more key of `params` is the map update of that key. */
  lemma SetParamsStep(q: map<string, seq<string>>, params: map<string, string>, todo: set<string>, k: string)
    requires k in todo && todo <= params.Keys
    ensures SetParams(q, params - (todo - {k})) == SetParams(q, params - todo)[k := [params[k]]]
  {
    var before, after := params - todo, params - (todo - {k});
    assert after.Keys == before.Keys + {k};
    assert SetParams(q, after).Keys == SetParams(q, before)[k := [params[k]]].Keys;
  }

  /** Setting no key keeps the query; setting every key is SetParams itself. */
  lemma SetParamsBounds(q: map<string, seq<string>>, params: map<string, string>)
    ensures SetParams(q, params - params.Keys) == q
    ensures SetParams(q, params - {}) == SetParams(q, params)
  {
    assert params - params.Keys == map[];
    assert params - {} == params;
  }

  /** The `for k, v := range queryParams { q.Set(k, v) }` loop, in whatever order the map yields its keys. */
  method SetAll(query: map<string, seq<string>>, params: map<string, string>)
    returns (q: map<string, seq<string>>)
    ensures q == SetParams(query, params)
  {
    q := query;
    var todo := params.Keys;
    SetParamsBounds(query, params);
    while todo != {}
      invariant todo <= params.Keys
      invariant q == SetParams(query, params - todo)
      decreases |todo|
    {
      var k :| k in todo;
      SetParamsStep(query, params, todo, k);
      q := q[k := [params[k]]];
      todo := todo - {k};
    }
  }

  /** The path `createUrl` writes: the template, slash runs collapsed, first `$` replaced by the channel. */
  function PathFor(template: string, channel: string): (r: string)
    ensures NoRedundantSlash(template) ==> r == ReplaceFirst(template, '$', channel)
    ensures '$' !in CollapseSlashes(template) ==> r == CollapseSlashes(template)
  {
    CollapseChanges(template);
    ReplaceFirst(CollapseSlashes(template), '$', channel)
  }

  /**
   * `createUrl`: `parsed` is what `url.Parse` made of the server URL (a failure
   * is passed on as it is); the query keys are set when a query map is given,
   * and the path is overwritten. Scheme, host and fragment are the server's.
   */
  method CreateUrl(parsed: Option<Url>, channel: string, template: string, params: Option<map<string, string>>)
    returns (res: Result<Url, ClientError>)
    ensures parsed.None? <==> res == Failure(UrlInvalid)
    ensures res.Failure? ==> res.error == UrlInvalid
    ensures res.Success? ==>
      var base := parsed.value;
      && res.value.scheme == base.scheme && res.value.host == base.host
      && res.value.fragment == base.fragment
      && res.value.path == PathFor(template, channel)
      && res.value.query == (if params.Some? then SetParams(base.query, params.value) else base.query)
    ensures res.Success? ==>
      res.value == parsed.value.(path := PathFor(template, channel),
                                 query := if params.Some? then SetParams(parsed.value.query, params.value) else parsed.value.query)
  {
    if parsed.None? {
      return Failure(UrlInvalid);
    }
    var u := parsed.value;
    if params.Some? {
      var q := SetAll(u.query, params.value);
      u := u.(query := q);
    }
    var pattern := CollapseSlashes(template);
    u := u.(path := ReplaceFirst(pattern, '$', channel));
    return Success(u);
  }
}

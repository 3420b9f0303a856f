/** firmware/main/web_server.c: the route matcher, in which a `*` stands for one path
    segment, or for the rest of the URI when it ends the template. */
module UriMatcher {

  predicate SlashFree(s: string) {
    '/' !in s
  }

  /** The meaning of a template: the URI splits into its literals, a non-empty
      slash-free run for every `*` but a final one, and any suffix for that. */
  ghost predicate Matches(t: string, u: string) {
    if t == "" then u == ""
    else if t == "*" then true
    else if t[0] == '*' then
      exists k :: 1 <= k <= |u| && SlashFree(u[..k]) && Matches(t[1..], u[k..])
    else u != "" && u[0] == t[0] && Matches(t[1..], u[1..])
  }

  /** Length of the leading segment. */
  function Segment(u: string): (n: nat)
    ensures n <= |u| && SlashFree(u[..n]) && (n < |u| ==> u[n] == '/')
  {
    if u == "" || u[0] == '/' then 0
    else
      var n := Segment(u[1..]);
      assert u[..n + 1] == [u[0]] + u[1..][..n];
      n + 1
  }

  /** Matching with every `*` taking its whole segment. */
  predicate Greedy(t: string, u: string) {
    if t == "" then u == ""
    else if t[0] == '*' then
      |t| == 1 || (u != "" && u[0] != '/' && Greedy(t[1..], u[Segment(u)..]))
    else u != "" && t[0] == u[0] && Greedy(t[1..], u[1..])
  }

  method UriMatchSegments(templ: string, uri: string) returns (matched: bool)
    ensures matched == Greedy(templ, uri)
  {
    var ti, ui := 0, 0;
    while ti < |templ|
      invariant 0 <= ti <= |templ| && 0 <= ui <= |uri|
      invariant Greedy(templ, uri) == Greedy(templ[ti..], uri[ui..])
    {
      if templ[ti] == '*' {
        if ti == |templ| - 1 {
          return true;
        }
        if ui >= |uri| || uri[ui] == '/' {
          return false;
        }
        ghost var start := ui;
        while ui < |uri| && uri[ui] != '/'
          invariant start <= ui <= |uri|
          invariant Segment(uri[start..]) == ui - start + Segment(uri[ui..])
        {
          assert uri[ui..][1..] == uri[ui + 1..];
          ui := ui + 1;
        }
        assert templ[ti..][1..] == templ[ti + 1..];
        assert uri[start..][ui - start..] == uri[ui..];
        ti := ti + 1;
      } else {
        if ui >= |uri| || templ[ti] != uri[ui] {
          return false;
        }
        assert templ[ti..][1..] == templ[ti + 1..] && uri[ui..][1..] == uri[ui + 1..];
        ti, ui := ti + 1, ui + 1;
      }
    }
    assert templ[ti..] == "";
    matched := ui == |uri|;
  }

  /** A `*` inside the template is followed by a slash, or by a final `*`. */
  predicate FullSegments(t: string) {
    forall i :: 0 <= i < |t| - 1 && t[i] == '*' ==> t[i + 1] == '/' || (t[i + 1] == '*' && i + 2 == |t|)
  }

  /** On such templates a slash-free run can only be the whole segment. */
  lemma {:induction false} GreedyIsExact(t: string, u: string)
    requires FullSegments(t)
    ensures Greedy(t, u) <==> Matches(t, u)
    decreases |t|
  {
    if |t| > 1 && t[0] == '*' {
      assert t[1] == '/' || t[1..] == "*";
      var n := Segment(u);
      if u != "" && u[0] != '/' {
        assert FullSegments(t[1..]) by { TailFull(t); }
        GreedyIsExact(t[1..], u[n..]);
      }
      forall k | 1 <= k <= |u| && SlashFree(u[..k]) && Matches(t[1..], u[k..])
        ensures Greedy(t, u)
      {
        assert u[..k][0] in u[..k];
        OnlyWholeSegment(t, u, k);
      }
    } else if t != "" && t[0] != '*' && u != "" && u[0] == t[0] {
      TailFull(t);
      GreedyIsExact(t[1..], u[1..]);
    }
  }

  lemma TailFull(t: string)
    requires t != "" && FullSegments(t)
    ensures FullSegments(t[1..])
  {
    forall i | 0 <= i < |t[1..]| - 1 && t[1..][i] == '*'
      ensures t[1..][i + 1] == '/' || (t[1..][i + 1] == '*' && i + 2 == |t[1..]|)
    {
      assert t[i + 1] == '*';
    }
  }

  lemma OnlyWholeSegment(t: string, u: string, k: nat)
    requires |t| > 1 && (t[1] == '/' || t[1..] == "*")
    requires 1 <= k <= |u| && SlashFree(u[..k]) && Matches(t[1..], u[k..])
    ensures t[1..] == "*" || k == Segment(u)
  {
    NoSlashBefore(u, k);
    NoSlashBefore(u, Segment(u));
  }

  lemma NoSlashBefore(u: string, k: nat)
    requires k <= |u| && SlashFree(u[..k])
    ensures forall i :: 0 <= i < k ==> u[i] != '/'
  {
    forall i | 0 <= i < k
      ensures u[i] != '/'
    {
      assert u[..k][i] in u[..k];
    }
  }

  /** A URI for every template. */
  function SampleUri(t: string): string {
    if t == "" || t == "*" then "" else [if t[0] == '*' then 'x' else t[0]] + SampleUri(t[1..])
  }

  lemma {:induction false} SampleMatches(t: string)
    ensures Matches(t, SampleUri(t))
    decreases |t|
  {
    if t != "" && t != "*" {
      var u := SampleUri(t);
      assert u[1..] == SampleUri(t[1..]);
      SampleMatches(t[1..]);
      assert u[..1] == [u[0]];
    }
  }

  /** Any other template matches nothing greedily. */
  lemma {:induction false} GreedyRejectsAll(t: string, u: string)
    requires !FullSegments(t)
    ensures !Greedy(t, u)
    decreases |t|
  {
    var i :| 0 <= i < |t| - 1 && t[i] == '*' && !(t[i + 1] == '/' || (t[i + 1] == '*' && i + 2 == |t|));
    if i > 0 {
      assert t[1..][i - 1] == '*' && t[1..][i] == t[i + 1];
      assert !FullSegments(t[1..]);
      if u != "" {
        GreedyRejectsAll(t[1..], if t[0] == '*' then u[Segment(u)..] else u[1..]);
      }
    }
  }

  /** The greedy matcher means what the template means, on every URI, exactly for
      the templates whose inner `*` are followed by a slash or a final `*`. */
  lemma MatcherExact(t: string)
    ensures FullSegments(t) <==> forall u :: Greedy(t, u) <==> Matches(t, u)
  {
    if FullSegments(t) {
      forall u
        ensures Greedy(t, u) <==> Matches(t, u)
      {
        GreedyIsExact(t, u);
      }
    } else {
      SampleMatches(t);
      GreedyRejectsAll(t, SampleUri(t));
    }
  }
}

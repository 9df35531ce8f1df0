/** Recovering a JSON object from free model text by string search: strip code fences, then take
    everything from the first `{` to the last `}`. Both discovery revisions that guard the slice
    share `BraceSlice`; the first revision slices without the guard (`UnguardedSlice`). */
module Extraction {
  import opened Wrappers
  import opened Text

  const JsonFence: string := "```json"
  const Fence: string := "```"

  /** `text.replace('```json', '').replace('```', '')`. */
  function StripFences(text: string): string {
    RemoveAll(RemoveAll(text, JsonFence), Fence)
  }

  /** Some `{` occurs strictly before some `}`. */
  ghost predicate OpensBeforeCloses(t: string) {
    exists i, j :: 0 <= i < j < |t| && t[i] == '{' && t[j] == '}'
  }

  /** `start = t.find('{'); end = t.rfind('}') + 1; if start >= 0 and end > start: t[start:end]`:
      the substring handed to the decoder, when the guard lets one through. */
  function BraceSlice(t: string): (r: Option<string>)
    ensures r.Some? ==> |r.value| >= 2 && r.value[0] == '{' && r.value[|r.value| - 1] == '}'
  {
    var start := Find(t, '{');
    var end := RFind(t, '}') + 1;
    if start >= 0 && end > start then Some(t[start..end]) else None
  }

  /** The slice taken is the piece between a prefix holding no `{` and a suffix holding no `}`. */
  lemma BraceSliceSplits(t: string)
    ensures BraceSlice(t).Some? ==> exists p, q :: t == p + BraceSlice(t).value + q && '{' !in p && '}' !in q
  {
    if BraceSlice(t).Some? {
      var start := Find(t, '{');
      var end := RFind(t, '}') + 1;
      ThreeWay(t, start, end);
      SplitWitness(t, t[..start], BraceSlice(t).value, t[end..]);
    }
  }

  lemma ThreeWay(t: string, i: nat, j: nat)
    requires i <= j <= |t|
    ensures t == t[..i] + t[i..j] + t[j..]
  {
  }

  lemma SplitWitness(t: string, p: string, v: string, q: string)
    requires t == p + v + q && '{' !in p && '}' !in q
    ensures exists p', q' :: t == p' + v + q' && '{' !in p' && '}' !in q'
  {
  }

  /** The guard holds exactly when some `{` comes before some `}`. */
  lemma BraceSliceDecision(t: string)
    ensures BraceSlice(t).Some? <==> OpensBeforeCloses(t)
  {
    var start := Find(t, '{');
    var end := RFind(t, '}') + 1;
    if start >= 0 && end > start {
      assert t[start] == '{' && t[end - 1] == '}';
    }
  }

  /** The guarded slice is determined by that decomposition: any split of `t` into a prefix
      without `{`, an object from `{` to `}`, and a suffix without `}` is the one found. */
  lemma BraceSliceOfSplit(p: string, v: string, q: string)
    requires |v| >= 2 && v[0] == '{' && v[|v| - 1] == '}'
    requires '{' !in p && '}' !in q
    ensures BraceSlice(p + v + q) == Some(v)
  {
    var t := p + v + q;
    assert t[..|p|] == p;
    assert t[|p|] == '{';
    FindIs(t, '{', |p|);
    assert t[|p| + |v| - 1] == '}';
    assert t[|p| + |v|..] == q;
    RFindIs(t, '}', |p| + |v| - 1);
    assert t[|p|..|p| + |v|] == v;
  }

  lemma FindIs(t: string, c: char, k: nat)
    requires k < |t| && t[k] == c && c !in t[..k]
    ensures Find(t, c) == k
  {
  }

  lemma RFindIs(t: string, c: char, k: nat)
    requires k < |t| && t[k] == c && c !in t[k + 1..]
    ensures RFind(t, c) == k
  {
  }

  /** `t[t.find('{'):t.rfind('}') + 1]` with no guard, as in the first revision. Wherever the
      guard would hold it agrees with `BraceSlice`; otherwise Python's negative-start rule leaves
      at most the final character: `"}"` exactly when there is no `{` and the text ends with `}`,
      and `""` in every other case. */
  function UnguardedSlice(t: string): (r: string)
    ensures BraceSlice(t).Some? ==> r == BraceSlice(t).value
    ensures BraceSlice(t).None? ==>
      && (r == "}" <==> '{' !in t && |t| > 0 && t[|t| - 1] == '}')
      && (r != "}" ==> r == "")
  {
    var start := Find(t, '{');
    var end := RFind(t, '}') + 1;
    assert start < 0 && end > 0 && end == |t| ==> t[|t| - 1..|t|] == "}";
    assert start < 0 && end > 0 && end < |t| ==> t[end..][|t| - 1 - end] == t[|t| - 1];
    PySlice(t, start, end)
  }

  /** Recursive form of `OpensBeforeCloses`, convenient for induction over the text. */
  predicate OpenThenClose(t: string) {
    if t == [] then false
    else if t[0] == '{' then '}' in t[1..]
    else OpenThenClose(t[1..])
  }

  lemma {:induction false} OpenThenCloseMeans(t: string)
    ensures OpenThenClose(t) <==> OpensBeforeCloses(t)
  {
    if t != [] {
      OpenThenCloseMeans(t[1..]);
      if OpensBeforeCloses(t[1..]) {
        var i, j :| 0 <= i < j < |t[1..]| && t[1..][i] == '{' && t[1..][j] == '}';
        assert t[i + 1] == '{' && t[j + 1] == '}';
      }
      if t[0] == '{' && '}' in t[1..] {
        var j :| 0 <= j < |t[1..]| && t[1..][j] == '}';
        assert t[j + 1] == '}';
      }
      if OpensBeforeCloses(t) {
        var i, j :| 0 <= i < j < |t| && t[i] == '{' && t[j] == '}';
        if i == 0 {
          assert t[1..][j - 1] == '}';
        } else {
          assert t[1..][i - 1] == '{' && t[1..][j - 1] == '}';
        }
      }
    }
  }

  lemma {:induction false} OpenThenCloseSkips(p: string, x: string)
    requires '{' !in p
    ensures OpenThenClose(p + x) == OpenThenClose(x)
  {
    if p != [] {
      assert (p + x)[1..] == p[1..] + x;
      OpenThenCloseSkips(p[1..], x);
    } else {
      assert p + x == x;
    }
  }

  /** Removing a brace-free pattern never changes whether a `{` precedes a `}`. */
  lemma {:induction false} RemoveAllOpenThenClose(s: string, pat: string)
    requires pat != [] && '{' !in pat && '}' !in pat
    ensures OpenThenClose(RemoveAll(s, pat)) == OpenThenClose(s)
    decreases |s|
  {
    if |s| < |pat| {
    } else if s[..|pat|] == pat {
      RemoveAllOpenThenClose(s[|pat|..], pat);
      assert s == s[..|pat|] + s[|pat|..];
      OpenThenCloseSkips(s[..|pat|], s[|pat|..]);
    } else {
      RemoveAllOpenThenClose(s[1..], pat);
      RemoveAllKeeps(s[1..], pat, '}');
      var r := RemoveAll(s[1..], pat);
      assert ([s[0]] + r)[1..] == r;
    }
  }

  /** Fence stripping never changes WHETHER a slice is taken, only which characters it holds:
      the perplexity revision attempts a decode on exactly the replies the improved revision
      would. */
  lemma StripFencesKeepsDecision(t: string)
    ensures BraceSlice(StripFences(t)).Some? <==> BraceSlice(t).Some?
  {
    RemoveAllOpenThenClose(t, JsonFence);
    RemoveAllOpenThenClose(RemoveAll(t, JsonFence), Fence);
    OpenThenCloseMeans(t);
    OpenThenCloseMeans(StripFences(t));
  }

  /** A text in which the pattern occurs nowhere is left unchanged. */
  lemma {:induction false} RemoveAllAbsent(s: string, pat: string)
    requires pat != []
    requires forall i :: !OccursAt(s, pat, i)
    ensures RemoveAll(s, pat) == s
    decreases |s|
  {
    if |s| >= |pat| {
      assert !OccursAt(s, pat, 0);
      forall i ensures !OccursAt(s[1..], pat, i) {
        if 0 <= i && i + |pat| <= |s[1..]| {
          assert s[1..][i..i + |pat|] == s[i + 1..i + 1 + |pat|];
          assert !OccursAt(s, pat, i + 1);
        }
      }
      RemoveAllAbsent(s[1..], pat);
      assert s == [s[0]] + s[1..];
    }
  }

  /** A text without the pattern's first character is left unchanged. */
  lemma RemoveAllFree(t: string, pat: string)
    requires pat != [] && pat[0] !in t
    ensures RemoveAll(t, pat) == t
  {
    RemoveAllPassThrough(t, [], pat);
    assert t + [] == t;
  }

  /** A fence closed by a newline holds no "```json". */
  lemma ClosingFenceNotJson(outro: string)
    requires '`' !in outro
    ensures RemoveAll(Fence + "\n" + outro, JsonFence) == Fence + "\n" + outro
  {
    var tail := Fence + "\n" + outro;
    assert tail[3] == '\n';
    forall i ensures !OccursAt(tail, JsonFence, i) {
      if 0 <= i && i + 7 <= |tail| {
        var w := tail[i..i + 7];
        if i <= 2 {
          assert w[3 - i] == '\n' && JsonFence[3 - i] != '\n';
        } else {
          assert w[0] == tail[i] && tail[i] != '`';
        }
      }
    }
    RemoveAllAbsent(tail, JsonFence);
  }

  /** One occurrence of the pattern between a prefix that cannot start one and a remainder the
      removal leaves alone is the only thing removed. */
  lemma StripOne(a: string, pat: string, b: string)
    requires pat != [] && pat[0] !in a
    requires RemoveAll(b, pat) == b
    ensures RemoveAll(a + (pat + b), pat) == a + b
  {
    RemoveAllPassThrough(a, pat + b, pat);
    RemoveAllLeading(pat, b);
  }

  /** Removing "```json" takes out the opening fence and leaves the closing one. */
  lemma FirstPass(intro: string, body: string, outro: string)
    requires '`' !in intro && '`' !in body && '`' !in outro
    ensures RemoveAll(intro + (JsonFence + (body + (Fence + ("\n" + outro)))), JsonFence)
         == intro + (body + (Fence + ("\n" + outro)))
  {
    var closing := Fence + ("\n" + outro);
    assert Fence + "\n" + outro == closing;
    ClosingFenceNotJson(outro);
    RemoveAllPassThrough(body, closing, JsonFence);
    StripOne(intro, JsonFence, body + closing);
  }

  /** Removing "```" then takes out the closing fence. */
  lemma SecondPass(intro: string, body: string, outro: string)
    requires '`' !in intro && '`' !in body && '`' !in outro
    ensures RemoveAll((intro + body) + (Fence + ("\n" + outro)), Fence) == (intro + body) + ("\n" + outro)
  {
    RemoveAllFree("\n" + outro, Fence);
    StripOne(intro + body, Fence, "\n" + outro);
  }

  /** A reply that wraps a JSON object in a ```json fence, with prose before and after it,
      still yields exactly that object. */
  lemma FencedReplyYieldsObject(intro: string, obj: string, outro: string)
    requires |obj| >= 2 && obj[0] == '{' && obj[|obj| - 1] == '}'
    requires '`' !in intro && '`' !in obj && '`' !in outro
    requires '{' !in intro && '}' !in outro
    ensures BraceSlice(StripFences(intro + "```json\n" + obj + "\n```\n" + outro)) == Some(obj)
  {
    var body := "\n" + obj + "\n";
    assert '`' !in body;
    var closing := Fence + ("\n" + outro);
    var reply := intro + "```json\n" + obj + "\n```\n" + outro;
    assert reply == intro + (JsonFence + (body + closing));
    FirstPass(intro, body, outro);
    assert intro + (body + closing) == (intro + body) + closing;
    SecondPass(intro, body, outro);
    assert (intro + body) + ("\n" + outro) == (intro + "\n") + obj + ("\n" + "\n" + outro);
    BraceSliceOfSplit(intro + "\n", obj, "\n" + "\n" + outro);
  }
}

/**
 The repair of generated text: which repaired texts keep the fixed tokens of the
 original, and what a repair may change in a JSON document.  Regular expressions
 and language identification are functions of a policy, left uninterpreted.
 */
module Language {
  import opened Ledger

  type Token = nat

  // ---------------------------------------------------------------- fixed tokens

  /** `f` places each old token in the repair, in order, and only numbers are left over. */
  ghost predicate Embedding(olds: seq<Token>, news: seq<Token>, f: seq<nat>, number: Token -> bool) {
    && |f| == |olds|
    && (forall i :: 0 <= i < |f| ==> f[i] < |news| && news[f[i]] == olds[i])
    && (forall i, j :: 0 <= i < j < |f| ==> f[i] < f[j])
    && (forall j :: 0 <= j < |news| && j !in f ==> number(news[j]))
  }

  /** The one-pass check of the repaired tokens from `index` old tokens on. */
  predicate Greedy(olds: seq<Token>, news: seq<Token>, number: Token -> bool) {
    if news == [] then olds == []
    else if olds != [] && news[0] == olds[0] then Greedy(olds[1..], news[1..], number)
    else number(news[0]) && Greedy(olds, news[1..], number)
  }

  function Shifted(f: seq<nat>): (g: seq<nat>)
    ensures |g| == |f| && forall i :: 0 <= i < |f| ==> g[i] == f[i] + 1
  {
    seq(|f|, i requires 0 <= i < |f| => f[i] + 1)
  }

  function Unshifted(f: seq<nat>): (g: seq<nat>)
    requires forall i :: 0 <= i < |f| ==> f[i] > 0
    ensures |g| == |f| && forall i :: 0 <= i < |f| ==> g[i] == f[i] - 1
  {
    seq(|f|, i requires 0 <= i < |f| => f[i] - 1)
  }

  /** A place found in the tail of the repair is a place in the repair. */
  lemma EmbedLater(olds: seq<Token>, news: seq<Token>, g: seq<nat>, number: Token -> bool)
    requires news != [] && Embedding(olds, news[1..], g, number) && number(news[0])
    ensures Embedding(olds, news, Shifted(g), number)
  {
    forall j | 0 <= j < |news| && j !in Shifted(g) ensures number(news[j]) {
      if j > 0 {
        assert forall i :: 0 <= i < |g| ==> g[i] != j - 1;
        assert news[1..][j - 1] == news[j];
      }
    }
  }

  /** The places of the tail, with the first token placed first. */
  function Placed(g: seq<nat>): (f: seq<nat>)
    ensures |f| == |g| + 1 && f[0] == 0 && forall i :: 0 <= i < |g| ==> f[i + 1] == g[i] + 1
  {
    seq(|g| + 1, i requires 0 <= i <= |g| => if i == 0 then 0 else g[i - 1] + 1)
  }

  lemma EmbedFirst(olds: seq<Token>, news: seq<Token>, g: seq<nat>, number: Token -> bool)
    requires news != [] && olds != [] && news[0] == olds[0] && Embedding(olds[1..], news[1..], g, number)
    ensures Embedding(olds, news, Placed(g), number)
  {
    var f := Placed(g);
    forall i | 0 < i < |f| ensures f[i] < |news| && news[f[i]] == olds[i] {
      assert f[i - 1 + 1] == g[i - 1] + 1 && olds[i] == olds[1..][i - 1];
    }
    forall i, j | 0 <= i < j < |f| ensures f[i] < f[j] {
      assert f[j - 1 + 1] == g[j - 1] + 1;
      assert i > 0 ==> f[i - 1 + 1] == g[i - 1] + 1;
    }
    forall j | 0 <= j < |news| && j !in f ensures number(news[j]) {
      assert f[0] == 0 && news[1..][j - 1] == news[j];
      forall i | 0 <= i < |g| ensures g[i] != j - 1 {
        assert f[i + 1] == g[i] + 1;
      }
    }
  }

  lemma {:induction false} GreedySound(olds: seq<Token>, news: seq<Token>, number: Token -> bool) returns (f: seq<nat>)
    requires Greedy(olds, news, number)
    ensures Embedding(olds, news, f, number)
    decreases |news|
  {
    if news == [] {
      f := [];
    } else if olds != [] && news[0] == olds[0] {
      var g := GreedySound(olds[1..], news[1..], number);
      EmbedFirst(olds, news, g, number);
      f := Placed(g);
    } else {
      var g := GreedySound(olds, news[1..], number);
      EmbedLater(olds, news, g, number);
      f := Shifted(g);
    }
  }

  /** A first token that no old token uses is a number, and the rest is embedded behind it. */
  lemma SkipFirst(olds: seq<Token>, news: seq<Token>, f: seq<nat>, number: Token -> bool) returns (g: seq<nat>)
    requires news != [] && Embedding(olds, news, f, number) && (f == [] || f[0] > 0)
    ensures number(news[0]) && Embedding(olds, news[1..], g, number)
  {
    assert 0 !in f;
    g := Unshifted(f);
    forall j | 0 <= j < |news[1..]| && j !in g ensures number(news[1..][j]) {
      assert forall i :: 0 <= i < |f| ==> g[i] != j;
    }
  }

  /**
   The first old token may as well be matched at once: the place it had holds the same
   token, a number if left over.
   */
  lemma MatchFirst(olds: seq<Token>, news: seq<Token>, f: seq<nat>, number: Token -> bool) returns (g: seq<nat>)
    requires news != [] && olds != [] && news[0] == olds[0] && Embedding(olds, news, f, number)
    ensures Embedding(olds[1..], news[1..], g, number)
  {
    g := Unshifted(f[1..]);
    forall j | 0 <= j < |news[1..]| && j !in g ensures number(news[1..][j]) {
      assert forall i :: 0 < i < |f| ==> f[i] - 1 == g[i - 1] != j;
      if j + 1 == f[0] {
        assert 0 !in f;
      } else {
        assert j + 1 !in f;
      }
    }
  }

  /** Taking the first match is never wrong. */
  lemma {:induction false} GreedyComplete(olds: seq<Token>, news: seq<Token>, f: seq<nat>, number: Token -> bool)
    requires Embedding(olds, news, f, number)
    ensures Greedy(olds, news, number)
    decreases |news|
  {
    if news != [] {
      if olds != [] && news[0] == olds[0] {
        var g := MatchFirst(olds, news, f, number);
        GreedyComplete(olds[1..], news[1..], g, number);
      } else {
        var g := SkipFirst(olds, news, f, number);
        GreedyComplete(olds, news[1..], g, number);
      }
    }
  }

  // ---------------------------------------------------------------- policies and documents

  type Words = nat

  datatype Label = Key(name: nat) | Index(position: nat)

  type Path = seq<Label>

  /** A list is a branch labelled by positions, an object a branch labelled by its keys. */
  datatype Json = Text(words: Words) | Scalar(value: nat) | Branch(labels: seq<Label>, children: seq<Json>)

  datatype Issue = Issue(path: Path, text: Words)

  /** The expressions, detectors and terms of an accepted policy. */
  datatype Policy = Policy(flagged: (Path, Words) -> bool, tokens: Words -> seq<Token>, number: Token -> bool,
                           han: Words -> bool, blank: Words -> bool, terms: seq<nat>, count: (Words, nat) -> nat)

  /** `_repair_keeps_fixed_tokens`. */
  predicate KeepsFixedTokens(p: Policy, original: Words, repaired: Words) {
    || p.tokens(original) == p.tokens(repaired)
    || (p.han(original) && !p.han(repaired) && Greedy(p.tokens(original), p.tokens(repaired), p.number))
  }

  /** A repair is accepted exactly when its tokens are the same, or it removes all Han and adds only numbers. */
  lemma RepairAccepted(p: Policy, original: Words, repaired: Words)
    ensures KeepsFixedTokens(p, original, repaired) <==>
      (|| p.tokens(original) == p.tokens(repaired)
       || (p.han(original) && !p.han(repaired)
           && exists f :: Embedding(p.tokens(original), p.tokens(repaired), f, p.number)))
  {
    if Greedy(p.tokens(original), p.tokens(repaired), p.number) {
      var f := GreedySound(p.tokens(original), p.tokens(repaired), p.number);
    }
    if f :| Embedding(p.tokens(original), p.tokens(repaired), f, p.number) {
      GreedyComplete(p.tokens(original), p.tokens(repaired), f, p.number);
    }
  }

  /** The loop of `_repair_keeps_fixed_tokens`. */
  method CheckFixedTokens(p: Policy, original: Words, repaired: Words) returns (ok: bool)
    ensures ok == KeepsFixedTokens(p, original, repaired)
  {
    var olds, news := p.tokens(original), p.tokens(repaired);
    if olds == news {
      return true;
    }
    if !p.han(original) || p.han(repaired) {
      return false;
    }
    var index, k := 0, 0;
    assert olds[0..] == olds && news[0..] == news;
    while k < |news|
      invariant index <= |olds| && k <= |news|
      invariant Greedy(olds[index..], news[k..], p.number) == Greedy(olds, news, p.number)
    {
      assert news[k..][1..] == news[k + 1..];
      assert index < |olds| ==> olds[index..][1..] == olds[index + 1..];
      if index < |olds| && news[k] == olds[index] {
        index := index + 1;
      } else if !p.number(news[k]) {
        return false;
      }
      k := k + 1;
    }
    return index == |olds|;
  }

  // ---------------------------------------------------------------- strings of a document

  predicate Distinct(labels: seq<Label>) {
    forall i, j :: 0 <= i < j < |labels| ==> labels[i] != labels[j]
  }

  /** Lists and objects label their children once each. */
  predicate Document(v: Json) {
    match v
    case Text(_) => true
    case Scalar(_) => true
    case Branch(labels, children) =>
      |labels| == |children| && Distinct(labels) && forall i :: 0 <= i < |children| ==> Document(children[i])
  }

  /** `_strings`. */
  function Strings(v: Json, path: Path): seq<Issue>
    decreases v, 1, 0
  {
    match v
    case Text(words) => [Issue(path, words)]
    case Scalar(_) => []
    case Branch(labels, children) => StringsBelow(v, path, |children|)
  }

  /** The strings of the first `k` children. */
  function StringsBelow(v: Json, path: Path, k: nat): seq<Issue>
    requires v.Branch? && k <= |v.children|
    decreases v, 0, k
  {
    if k == 0 then []
    else if k > |v.labels| then StringsBelow(v, path, k - 1)
    else StringsBelow(v, path, k - 1) + Strings(v.children[k - 1], path + [v.labels[k - 1]])
  }

  function FindLabel(labels: seq<Label>, l: Label): (r: Option<nat>)
    ensures r.Some? ==> r.value < |labels| && labels[r.value] == l
    ensures r.None? ==> l !in labels
  {
    if labels == [] then None
    else if labels[|labels| - 1] == l then Some(|labels| - 1)
    else FindLabel(labels[..|labels| - 1], l)
  }

  /** The value at a path. */
  function At(v: Json, path: Path): Option<Json>
    decreases |path|
  {
    if path == [] then Some(v)
    else if !v.Branch? then None
    else
      var i := FindLabel(v.labels, path[0]);
      if i.None? || i.value >= |v.children| then None else At(v.children[i.value], path[1..])
  }

  /** `parent[key] = text` after walking to the parent; a path to nowhere raises in the source. */
  function Put(v: Json, path: Path, text: Words): Json
    decreases |path|
  {
    if path == [] then Text(text)
    else if !v.Branch? then v
    else
      var i := FindLabel(v.labels, path[0]);
      if i.None? || i.value >= |v.children| then v
      else v.(children := v.children[i.value := Put(v.children[i.value], path[1..], text)])
  }

  /** The document with the leaves at the paths of `f` replaced, and nothing else. */
  function Patched(v: Json, path: Path, f: map<Path, Words>): Json
    decreases v
  {
    match v
    case Text(_) => if path in f then Text(f[path]) else v
    case Scalar(_) => v
    case Branch(labels, children) =>
      Branch(labels, seq(|children|, i requires 0 <= i < |children| =>
        if i < |labels| then Patched(children[i], path + [labels[i]], f) else children[i]))
  }

  predicate IsLeaf(v: Json, path: Path) {
    At(v, path).Some? && At(v, path).value.Text?
  }

  // ---------------------------------------------------------------- what a repair changes

  /** Replacements below another branch do not reach this one. */
  lemma {:induction false} PatchedElsewhere(v: Json, path: Path, f: map<Path, Words>, p: Path, text: Words)
    requires !(path <= p)
    ensures Patched(v, path, f[p := text]) == Patched(v, path, f)
    decreases v
  {
    if v.Branch? {
      forall i | 0 <= i < |v.children| && i < |v.labels|
        ensures Patched(v.children[i], path + [v.labels[i]], f[p := text])
          == Patched(v.children[i], path + [v.labels[i]], f)
      {
        assert path + [v.labels[i]] <= p ==> path <= p;
        PatchedElsewhere(v.children[i], path + [v.labels[i]], f, p, text);
      }
    }
  }

  /** Writing one more leaf of a patched document is patching one more leaf. */
  lemma {:induction false} PutPatched(v: Json, path: Path, f: map<Path, Words>, p: Path, text: Words)
    requires Document(v) && IsLeaf(v, p)
    ensures Put(Patched(v, path, f), p, text) == Patched(v, path, f[path + p := text])
    decreases |p|
  {
    if p == [] {
      assert path + p == path;
    } else {
      var i := FindLabel(v.labels, p[0]).value;
      assert path + p == (path + [p[0]]) + p[1..];
      PutPatched(v.children[i], path + [v.labels[i]], f, p[1..], text);
      forall j | 0 <= j < |v.children| && j != i
        ensures Patched(v.children[j], path + [v.labels[j]], f[path + p := text])
          == Patched(v.children[j], path + [v.labels[j]], f)
      {
        assert (path + [v.labels[j]])[|path|] != (path + p)[|path|];
        PatchedElsewhere(v.children[j], path + [v.labels[j]], f, path + p, text);
      }
      assert Put(Patched(v, path, f), p, text).children == Patched(v, path, f[path + p := text]).children;
    }
  }

  /** The strings of a patched document are those of the document, replaced where `f` says. */
  function PatchedIssues(s: seq<Issue>, f: map<Path, Words>): (r: seq<Issue>)
    ensures |r| == |s|
    ensures forall i :: 0 <= i < |s| ==> r[i] == if s[i].path in f then Issue(s[i].path, f[s[i].path]) else s[i]
  {
    seq(|s|, i requires 0 <= i < |s| => if s[i].path in f then Issue(s[i].path, f[s[i].path]) else s[i])
  }

  lemma PatchedConcat(a: seq<Issue>, b: seq<Issue>, f: map<Path, Words>)
    ensures PatchedIssues(a + b, f) == PatchedIssues(a, f) + PatchedIssues(b, f)
  {
  }

  lemma {:induction false} PatchedStrings(v: Json, path: Path, f: map<Path, Words>)
    ensures Strings(Patched(v, path, f), path) == PatchedIssues(Strings(v, path), f)
    decreases v, 1, 0
  {
    if v.Branch? {
      PatchedStringsBelow(v, path, f, |v.children|);
    }
  }

  lemma {:induction false} PatchedStringsBelow(v: Json, path: Path, f: map<Path, Words>, k: nat)
    requires v.Branch? && k <= |v.children|
    ensures StringsBelow(Patched(v, path, f), path, k) == PatchedIssues(StringsBelow(v, path, k), f)
    decreases v, 0, k
  {
    if k > 0 {
      PatchedStringsBelow(v, path, f, k - 1);
      if k <= |v.labels| {
        var below := path + [v.labels[k - 1]];
        PatchedStrings(v.children[k - 1], below, f);
        assert Patched(v, path, f).children[k - 1] == Patched(v.children[k - 1], below, f);
        PatchedConcat(StringsBelow(v, path, k - 1), Strings(v.children[k - 1], below), f);
      }
    }
  }

  /** `Strings` lists leaves of the document, each under its own path. */
  lemma {:induction false} StringsAreLeaves(v: Json, path: Path, x: Issue)
    requires Document(v) && x in Strings(v, path)
    ensures path <= x.path && At(v, x.path[|path|..]) == Some(Text(x.text))
    decreases v, 1, 0
  {
    if v.Branch? {
      StringsBelowAreLeaves(v, path, |v.children|, x);
    }
  }

  lemma {:induction false} StringsBelowAreLeaves(v: Json, path: Path, k: nat, x: Issue)
    requires v.Branch? && k <= |v.children| && Document(v) && x in StringsBelow(v, path, k)
    ensures path <= x.path && At(v, x.path[|path|..]) == Some(Text(x.text))
    decreases v, 0, k
  {
    if x in StringsBelow(v, path, k - 1) {
      StringsBelowAreLeaves(v, path, k - 1, x);
    } else {
      var name, child := v.labels[k - 1], v.children[k - 1];
      StringsAreLeaves(child, path + [name], x);
      var rest := x.path[|path|..];
      assert path <= x.path;
      assert rest[0] == name && rest[1..] == x.path[|path| + 1..];
      assert FindLabel(v.labels, name) == Some(k - 1);
    }
  }

  // ---------------------------------------------------------------- the repair of a document

  /** `inspect_language`. */
  function Inspect(p: Policy, v: Json): seq<Issue> {
    Flagged(p, Strings(v, []))
  }

  function Flagged(p: Policy, s: seq<Issue>): (r: seq<Issue>)
    ensures forall x :: x in r <==> x in s && p.flagged(x.path, x.text)
  {
    if s == [] then [] else
      var rest := Flagged(p, s[..|s| - 1]);
      var last := s[|s| - 1];
      if p.flagged(last.path, last.text) then rest + [last] else rest
  }

  predicate TermsKept(p: Policy, original: Words, repaired: Words) {
    forall t :: t in p.terms ==> p.count(original, t) == p.count(repaired, t)
  }

  /** Whether one repaired text may replace the text of an issue. */
  predicate Acceptable(p: Policy, issue: Issue, text: Json) {
    text.Text? && !p.blank(text.words) && KeepsFixedTokens(p, issue.text, text.words)
      && TermsKept(p, issue.text, text.words)
  }

  /** The paths of the first `k` issues, with their repaired texts; a later issue of a path wins. */
  function Repairs(issues: seq<Issue>, texts: seq<Json>, k: nat): map<Path, Words>
    requires k <= |issues| == |texts|
  {
    if k == 0 then map[]
    else Repairs(issues, texts, k - 1)[issues[k - 1].path := if texts[k - 1].Text? then texts[k - 1].words else 0]
  }

  /** `apply_repair`; `patch` is the list under `texts`, if the reply has that and nothing else. */
  function ApplyRepair(p: Policy, v: Json, issues: seq<Issue>, patch: Option<seq<Json>>): Option<Json> {
    if patch.None? || |patch.value| != |issues| then None
    else if exists i :: 0 <= i < |issues| && !Acceptable(p, issues[i], patch.value[i]) then None
    else
      var result := Patched(v, [], Repairs(issues, patch.value, |issues|));
      if Inspect(p, result) != [] then None else Some(result)
  }

  /** The loop of `apply_repair`, which writes the texts into a copy one by one. */
  method RepairDocument(p: Policy, v: Json, issues: seq<Issue>, patch: Option<seq<Json>>) returns (r: Option<Json>)
    requires Document(v) && forall x :: x in issues ==> IsLeaf(v, x.path)
    ensures r == ApplyRepair(p, v, issues, patch)
  {
    if patch.None? || |patch.value| != |issues| {
      return None;
    }
    var result := v;
    PatchedNothing(v, []);
    for k := 0 to |issues|
      invariant result == Patched(v, [], Repairs(issues, patch.value, k))
      invariant forall i :: 0 <= i < k ==> Acceptable(p, issues[i], patch.value[i])
    {
      var text := patch.value[k];
      if !text.Text? || p.blank(text.words) {
        return None;
      }
      var keeps := CheckFixedTokens(p, issues[k].text, text.words);
      if !keeps || !TermsKept(p, issues[k].text, text.words) {
        return None;
      }
      PutPatched(v, [], Repairs(issues, patch.value, k), issues[k].path, text.words);
      assert [] + issues[k].path == issues[k].path;
      result := Put(result, issues[k].path, text.words);
    }
    return if Inspect(p, result) != [] then None else Some(result);
  }

  lemma {:induction false} PatchedNothing(v: Json, path: Path)
    ensures Patched(v, path, map[]) == v
    decreases v
  {
    if v.Branch? {
      forall i | 0 <= i < |v.children| && i < |v.labels|
        ensures Patched(v.children[i], path + [v.labels[i]], map[]) == v.children[i]
      {
        PatchedNothing(v.children[i], path + [v.labels[i]]);
      }
      assert Patched(v, path, map[]).children == v.children;
    }
  }

  /** Two documents of one shape: they differ in the words of leaves only. */
  predicate SameShape(a: Json, b: Json) {
    match a
    case Text(_) => b.Text?
    case Scalar(_) => b == a
    case Branch(labels, children) =>
      && b.Branch? && b.labels == labels && |b.children| == |children|
      && forall i :: 0 <= i < |children| ==> SameShape(children[i], b.children[i])
  }

  lemma {:induction false} PatchedShape(v: Json, path: Path, f: map<Path, Words>)
    requires Document(v)
    ensures SameShape(v, Patched(v, path, f))
    decreases v
  {
    if v.Branch? {
      forall i | 0 <= i < |v.children| ensures SameShape(v.children[i], Patched(v, path, f).children[i]) {
        PatchedShape(v.children[i], path + [v.labels[i]], f);
      }
    }
  }

  lemma {:induction false} RepairsOf(issues: seq<Issue>, texts: seq<Json>, k: nat)
    requires k <= |issues| == |texts|
    ensures forall q :: q in Repairs(issues, texts, k) <==> exists i :: 0 <= i < k && issues[i].path == q
  {
    if k > 0 {
      RepairsOf(issues, texts, k - 1);
    }
  }

  predicate DistinctPaths(s: seq<Issue>) {
    forall i, j :: 0 <= i < j < |s| ==> s[i].path != s[j].path
  }

  /** `Strings` names every leaf by a path of its own. */
  lemma {:induction false} StringsDistinct(v: Json, path: Path)
    requires Document(v)
    ensures DistinctPaths(Strings(v, path))
    decreases v, 1, 0
  {
    if v.Branch? {
      StringsBelowDistinct(v, path, |v.children|);
    }
  }

  lemma {:induction false} StringsBelowDistinct(v: Json, path: Path, k: nat)
    requires v.Branch? && k <= |v.children| && Document(v)
    ensures DistinctPaths(StringsBelow(v, path, k))
    ensures forall x :: x in StringsBelow(v, path, k) ==>
      path < x.path && exists i :: 0 <= i < k && v.labels[i] == x.path[|path|]
    decreases v, 0, k
  {
    if k > 0 {
      var before, below := StringsBelow(v, path, k - 1), path + [v.labels[k - 1]];
      StringsBelowDistinct(v, path, k - 1);
      StringsDistinct(v.children[k - 1], below);
      forall x | x in Strings(v.children[k - 1], below) ensures path < x.path && x.path[|path|] == v.labels[k - 1] {
        StringsAreLeaves(v.children[k - 1], below, x);
        assert below <= x.path && below[|path|] == v.labels[k - 1];
      }
      forall x | x in before ensures x.path[|path|] != v.labels[k - 1] {
      }
    }
  }

  lemma {:induction false} FlaggedDistinct(p: Policy, s: seq<Issue>)
    requires DistinctPaths(s)
    ensures DistinctPaths(Flagged(p, s))
  {
    if s != [] {
      var last := s[|s| - 1];
      FlaggedDistinct(p, s[..|s| - 1]);
      forall x | x in Flagged(p, s[..|s| - 1]) ensures x.path != last.path {
        assert x in s[..|s| - 1];
      }
    }
  }

  /** Issues of different paths keep their own texts. */
  lemma {:induction false} RepairsAt(issues: seq<Issue>, texts: seq<Json>, k: nat, i: nat)
    requires i < k <= |issues| == |texts| && DistinctPaths(issues) && texts[i].Text?
    ensures issues[i].path in Repairs(issues, texts, k) && Repairs(issues, texts, k)[issues[i].path] == texts[i].words
  {
    if i < k - 1 {
      RepairsAt(issues, texts, k - 1, i);
    }
  }

  lemma {:induction false} PatchedAt(v: Json, path: Path, f: map<Path, Words>, q: Path)
    requires Document(v) && IsLeaf(v, q) && path + q in f
    ensures At(Patched(v, path, f), q) == Some(Text(f[path + q]))
    decreases |q|
  {
    if q == [] {
      assert path + q == path;
    } else {
      var i := FindLabel(v.labels, q[0]).value;
      assert path + q == (path + [q[0]]) + q[1..];
      PatchedAt(v.children[i], path + [v.labels[i]], f, q[1..]);
    }
  }

  predicate Repaired(p: Policy, v: Json, r: Json, texts: seq<Json>, k: nat) {
    && k < |Inspect(p, v)| == |texts|
    && At(r, Inspect(p, v)[k].path) == Some(texts[k])
    && Acceptable(p, Inspect(p, v)[k], texts[k])
  }

  predicate Unflagged(p: Policy, x: Issue) {
    !p.flagged(x.path, x.text)
  }

  lemma RepairsLand(p: Policy, v: Json, texts: seq<Json>, k: nat)
    requires Document(v) && k < |Inspect(p, v)| == |texts| && Acceptable(p, Inspect(p, v)[k], texts[k])
    ensures Repaired(p, v, Patched(v, [], Repairs(Inspect(p, v), texts, |texts|)), texts, k)
  {
    var issues := Inspect(p, v);
    var path := issues[k].path;
    StringsDistinct(v, []);
    FlaggedDistinct(p, Strings(v, []));
    IssuesAreLeaves(p, v);
    assert issues[k] in issues;
    RepairsAt(issues, texts, |issues|, k);
    assert [] + path == path;
    PatchedAt(v, [], Repairs(issues, texts, |issues|), path);
  }

  lemma UnflaggedKept(p: Policy, v: Json, texts: seq<Json>, i: nat)
    requires Document(v) && |Inspect(p, v)| == |texts| && i < |Strings(v, [])| && Unflagged(p, Strings(v, [])[i])
    ensures Strings(v, [])[i].path !in Repairs(Inspect(p, v), texts, |texts|)
  {
    var issues, s := Inspect(p, v), Strings(v, []);
    StringsDistinct(v, []);
    RepairsOf(issues, texts, |texts|);
    forall k | 0 <= k < |issues| ensures issues[k].path != s[i].path {
      assert issues[k] in issues && issues[k] in s;
    }
  }

  /**
   A repair keeps the shape of the document, puts each repaired text where its
   issue was found, changes no other string, and leaves nothing flagged behind.
   */
  lemma RepairChangesOnlyFlagged(p: Policy, v: Json, texts: seq<Json>)
    requires Document(v) && ApplyRepair(p, v, Inspect(p, v), Some(texts)).Some?
    ensures var r, s := ApplyRepair(p, v, Inspect(p, v), Some(texts)).value, Strings(v, []);
      && SameShape(v, r) && Inspect(p, r) == []
      && |Strings(r, [])| == |s|
      && (forall i :: 0 <= i < |s| ==> Strings(r, [])[i].path == s[i].path)
      && (forall i :: 0 <= i < |s| && Unflagged(p, s[i]) ==> Strings(r, [])[i] == s[i])
      && (forall k :: 0 <= k < |Inspect(p, v)| ==> Repaired(p, v, r, texts, k))
  {
    var issues, s := Inspect(p, v), Strings(v, []);
    var f := Repairs(issues, texts, |texts|);
    PatchedShape(v, [], f);
    PatchedStrings(v, [], f);
    forall k | 0 <= k < |issues| ensures Repaired(p, v, Patched(v, [], f), texts, k) {
      RepairsLand(p, v, texts, k);
    }
    forall i | 0 <= i < |s| && Unflagged(p, s[i]) ensures s[i].path !in f {
      UnflaggedKept(p, v, texts, i);
    }
  }

  /** Issues found in a document are leaves of it, as `RepairDocument` asks. */
  lemma IssuesAreLeaves(p: Policy, v: Json)
    requires Document(v)
    ensures forall x :: x in Inspect(p, v) ==> IsLeaf(v, x.path) && At(v, x.path) == Some(Text(x.text))
  {
    forall x | x in Inspect(p, v) ensures At(v, x.path) == Some(Text(x.text)) {
      StringsAreLeaves(v, [], x);
      assert x.path[0..] == x.path;
    }
  }

  // ---------------------------------------------------------------- exactly when a repair is accepted

  /**
   One text may replace another: it says something, keeps the fixed tokens in order
   (or removes all Han and adds only numbers), and keeps the count of each term.
   */
  ghost predicate Fair(p: Policy, original: Words, text: Json) {
    && text.Text? && !p.blank(text.words)
    && (p.tokens(original) == p.tokens(text.words)
        || (p.han(original) && !p.han(text.words)
            && exists f :: Embedding(p.tokens(original), p.tokens(text.words), f, p.number)))
    && forall k :: 0 <= k < |p.terms| ==> p.count(original, p.terms[k]) == p.count(text.words, p.terms[k])
  }

  lemma FairIsAcceptable(p: Policy, issue: Issue, text: Json)
    ensures Acceptable(p, issue, text) <==> Fair(p, issue.text, text)
  {
    if text.Text? {
      RepairAccepted(p, issue.text, text.words);
      assert TermsKept(p, issue.text, text.words) <==>
        forall k :: 0 <= k < |p.terms| ==> p.count(issue.text, p.terms[k]) == p.count(text.words, p.terms[k]);
    }
  }

  /** `r` is `v` with the texts put where the issues are, and nothing else changed. */
  ghost predicate IsRepair(p: Policy, v: Json, texts: seq<Json>, r: Json) {
    && SameShape(v, r) && |texts| == |Inspect(p, v)| && |Strings(r, [])| == |Strings(v, [])|
    && (forall i :: 0 <= i < |Strings(v, [])| ==> Strings(r, [])[i].path == Strings(v, [])[i].path)
    && (forall i :: 0 <= i < |Strings(v, [])| && Unflagged(p, Strings(v, [])[i]) ==>
          Strings(r, [])[i] == Strings(v, [])[i])
    && forall k :: 0 <= k < |texts| ==> At(r, Inspect(p, v)[k].path) == Some(texts[k])
  }

  lemma PatchedIsRepair(p: Policy, v: Json, texts: seq<Json>)
    requires Document(v) && |texts| == |Inspect(p, v)|
    requires forall k :: 0 <= k < |texts| ==> Acceptable(p, Inspect(p, v)[k], texts[k])
    ensures IsRepair(p, v, texts, Patched(v, [], Repairs(Inspect(p, v), texts, |texts|)))
  {
    var s, f := Strings(v, []), Repairs(Inspect(p, v), texts, |texts|);
    PatchedShape(v, [], f);
    PatchedStrings(v, [], f);
    forall k | 0 <= k < |texts| ensures At(Patched(v, [], f), Inspect(p, v)[k].path) == Some(texts[k]) {
      RepairsLand(p, v, texts, k);
      assert Repaired(p, v, Patched(v, [], f), texts, k);
    }
    forall i | 0 <= i < |s| && Unflagged(p, s[i]) ensures s[i].path !in f {
      UnflaggedKept(p, v, texts, i);
    }
  }

  lemma {:induction false} ShapeDocument(v: Json, r: Json)
    requires Document(v) && SameShape(v, r)
    ensures Document(r)
    decreases v
  {
    if v.Branch? {
      forall i | 0 <= i < |v.children| ensures Document(r.children[i]) {
        ShapeDocument(v.children[i], r.children[i]);
      }
    }
  }

  /** All repairs of a document have the same strings. */
  lemma RepairsAgree(p: Policy, v: Json, texts: seq<Json>, q: Json, r: Json)
    requires Document(v) && IsRepair(p, v, texts, q) && IsRepair(p, v, texts, r)
    ensures Strings(q, []) == Strings(r, [])
  {
    ShapeDocument(v, q);
    ShapeDocument(v, r);
    forall i | 0 <= i < |Strings(v, [])| ensures Strings(q, [])[i] == Strings(r, [])[i] {
      var s, x, y := Strings(v, [])[i], Strings(q, [])[i], Strings(r, [])[i];
      if !Unflagged(p, s) {
        assert s in Inspect(p, v);
        var k :| 0 <= k < |Inspect(p, v)| && Inspect(p, v)[k] == s;
        StringsAreLeaves(q, [], x);
        StringsAreLeaves(r, [], y);
        assert x.path[0..] == x.path && y.path[0..] == y.path;
      }
    }
  }

  /**
   A repair is accepted if and only if there is one text for each issue, each of
   them fair, and the document with them in place has nothing flagged; the result is
   then that document.
   */
  lemma RepairAcceptedIff(p: Policy, v: Json, patch: Option<seq<Json>>)
    requires Document(v)
    ensures ApplyRepair(p, v, Inspect(p, v), patch).Some? <==>
      && patch.Some? && |patch.value| == |Inspect(p, v)|
      && (forall k :: 0 <= k < |patch.value| ==> Fair(p, Inspect(p, v)[k].text, patch.value[k]))
      && exists r :: IsRepair(p, v, patch.value, r) && forall x :: x in Strings(r, []) ==> !p.flagged(x.path, x.text)
    ensures ApplyRepair(p, v, Inspect(p, v), patch).Some? ==>
      IsRepair(p, v, patch.value, ApplyRepair(p, v, Inspect(p, v), patch).value)
  {
    var issues := Inspect(p, v);
    if patch.Some? && |patch.value| == |issues| {
      forall k | 0 <= k < |issues| ensures Acceptable(p, issues[k], patch.value[k])
          <==> Fair(p, issues[k].text, patch.value[k]) {
        FairIsAcceptable(p, issues[k], patch.value[k]);
      }
      if forall k :: 0 <= k < |issues| ==> Fair(p, issues[k].text, patch.value[k]) {
        PatchedDecides(p, v, patch.value);
      }
    }
  }

  lemma PatchedDecides(p: Policy, v: Json, texts: seq<Json>)
    requires Document(v) && |texts| == |Inspect(p, v)|
    requires forall k :: 0 <= k < |texts| ==> Acceptable(p, Inspect(p, v)[k], texts[k])
    ensures var q := Patched(v, [], Repairs(Inspect(p, v), texts, |texts|));
      && IsRepair(p, v, texts, q)
      && (Inspect(p, q) == [] <==>
            exists r :: IsRepair(p, v, texts, r) && forall x :: x in Strings(r, []) ==> !p.flagged(x.path, x.text))
  {
    var q := Patched(v, [], Repairs(Inspect(p, v), texts, |texts|));
    PatchedIsRepair(p, v, texts);
    InspectNothing(p, q);
    forall r | IsRepair(p, v, texts, r) ensures Strings(r, []) == Strings(q, []) {
      RepairsAgree(p, v, texts, q, r);
    }
  }

  lemma InspectNothing(p: Policy, q: Json)
    ensures Inspect(p, q) == [] <==> forall x :: x in Strings(q, []) ==> !p.flagged(x.path, x.text)
  {
    if Inspect(p, q) != [] {
      assert Inspect(p, q)[0] in Inspect(p, q);
    }
  }

  /** Every text of a document is among its listed strings. */
  lemma {:induction false} LeavesAreListed(v: Json, path: Path, q: Path, text: Words)
    requires Document(v) && At(v, q) == Some(Text(text))
    ensures Issue(path + q, text) in Strings(v, path)
    decreases v, 1, 0
  {
    if q == [] {
      assert path + q == path;
    } else {
      var i := FindLabel(v.labels, q[0]).value;
      assert path + q == (path + [q[0]]) + q[1..];
      LeavesAreListed(v.children[i], path + [v.labels[i]], q[1..], text);
      ListedBelow(v, path, |v.children|, i, Issue(path + q, text));
    }
  }

  lemma {:induction false} ListedBelow(v: Json, path: Path, k: nat, i: nat, x: Issue)
    requires v.Branch? && i < k <= |v.children| && |v.labels| == |v.children|
    requires x in Strings(v.children[i], path + [v.labels[i]])
    ensures x in StringsBelow(v, path, k)
    decreases k
  {
    if i < k - 1 {
      ListedBelow(v, path, k - 1, i, x);
    }
  }

  /** So an inspection finds exactly the texts of the document that the policy flags, each at its path. */
  lemma InspectIff(p: Policy, v: Json, q: Path, text: Words)
    requires Document(v)
    ensures Issue(q, text) in Inspect(p, v) <==> At(v, q) == Some(Text(text)) && p.flagged(q, text)
  {
    if Issue(q, text) in Strings(v, []) {
      StringsAreLeaves(v, [], Issue(q, text));
      assert q[0..] == q;
    }
    if At(v, q) == Some(Text(text)) {
      LeavesAreListed(v, [], q, text);
      assert [] + q == q;
    }
  }
}

/**
 * Slugs: the base-slug expression and the search for a free slug, which
 * organizations and marketplace APIs share up to the fallback word.
 */
module Slug {
  import opened Basics
  import Decimal

  // ----- The base-slug expression, over ASCII names --------------------------

  predicate AlNum(c: char) {
    'a' <= c <= 'z' || '0' <= c <= '9'
  }

  function LowerChar(c: char): char {
    if 'A' <= c <= 'Z' then c - 'A' + 'a' else c
  }

  function Lower(s: string): string {
    seq(|s|, i requires 0 <= i < |s| => LowerChar(s[i]))
  }

  /** The ASCII white space that `trim` removes. */
  predicate Blank(c: char) {
    c == ' ' || '\t' <= c <= '\r'
  }

  function TrimLeft(s: string): string {
    if s != "" && Blank(s[0]) then TrimLeft(s[1..]) else s
  }

  function TrimRight(s: string): string {
    if s != "" && Blank(Last(s)) then TrimRight(ButLast(s)) else s
  }

  function Trim(s: string): string {
    TrimRight(TrimLeft(s))
  }

  /** Every maximal run of other characters becomes one dash (written at its end). */
  function Dashed(s: string): string {
    if s == "" then ""
    else if AlNum(s[0]) then [s[0]] + Dashed(s[1..])
    else if |s| > 1 && !AlNum(s[1]) then Dashed(s[1..])
    else "-" + Dashed(s[1..])
  }

  function StripLeft(s: string): string {
    if s != "" && s[0] == '-' then StripLeft(s[1..]) else s
  }

  function StripRight(s: string): string {
    if s != "" && Last(s) == '-' then StripRight(ButLast(s)) else s
  }

  function Stripped(s: string): string {
    StripRight(StripLeft(s))
  }

  function Base(name: string, fallback: string): string {
    var slug := Stripped(Dashed(Trim(Lower(name))));
    if slug == "" then fallback else slug
  }

  // ----- What the expression means -------------------------------------------

  /** The maximal alphanumeric runs, in order. */
  function Words(s: string): (ws: seq<string>)
    ensures s != "" && AlNum(s[0]) ==> ws != []
  {
    if s == "" then []
    else if !AlNum(s[0]) then Words(s[1..])
    else if |s| > 1 && AlNum(s[1]) then Grow(s[0], Words(s[1..]))
    else [[s[0]]] + Words(s[1..])
  }

  /** Put a letter in front of the first word. */
  function Grow(c: char, ws: seq<string>): seq<string>
    requires ws != []
  {
    [[c] + ws[0]] + ws[1..]
  }

  function Joined(ws: seq<string>): string {
    if ws == [] then "" else if |ws| == 1 then ws[0] else ws[0] + "-" + Joined(ws[1..])
  }

  ghost predicate NormalForm(s: string) {
    && s != ""
    && (forall i :: 0 <= i < |s| ==> AlNum(s[i]) || s[i] == '-')
    && s[0] != '-' && Last(s) != '-'
    && (forall i :: 0 <= i < |s| - 1 ==> s[i] != '-' || s[i + 1] != '-')
  }

  ghost predicate AllWords(ws: seq<string>) {
    forall k :: 0 <= k < |ws| ==> ws[k] != "" && forall i :: 0 <= i < |ws[k]| ==> AlNum(ws[k][i])
  }

  lemma {:induction false} WordsAreWords(s: string)
    ensures AllWords(Words(s))
  {
    if s != "" {
      WordsAreWords(s[1..]);
    }
  }

  lemma {:induction false} JoinedIsNormal(ws: seq<string>)
    requires ws != [] && AllWords(ws)
    ensures NormalForm(Joined(ws))
  {
    if |ws| > 1 {
      assert AllWords(ws[1..]);
      JoinedIsNormal(ws[1..]);
      var a, b := ws[0], Joined(ws[1..]);
      var s := a + "-" + b;
      forall i | 0 <= i < |s| ensures AlNum(s[i]) || s[i] == '-' {
        assert s[i] == if i < |a| then a[i] else if i == |a| then '-' else b[i - |a| - 1];
      }
      forall i | 0 <= i < |s| - 1 ensures s[i] != '-' || s[i + 1] != '-' {
        if i < |a| { assert s[i] == a[i]; } else if i == |a| { assert s[i + 1] == b[0]; }
        else { assert s[i] == b[i - |a| - 1] && s[i + 1] == b[i - |a|]; }
      }
    }
  }

  function Lead(s: string): string {
    if s != "" && !AlNum(s[0]) then "-" else ""
  }

  function Trail(s: string): string {
    if Words(s) != [] && !AlNum(Last(s)) then "-" else ""
  }

  lemma JoinedGrows(c: char, ws: seq<string>)
    requires ws != []
    ensures Joined(Grow(c, ws)) == [c] + Joined(ws)
  {
    if |ws| > 1 {
      assert Grow(c, ws)[1..] == ws[1..];
      assert [c] + ws[0] + "-" + Joined(ws[1..]) == [c] + (ws[0] + "-" + Joined(ws[1..]));
    }
  }

  /** Dashing a text joins its words, keeping a dash at an end that is not a word's. */
  lemma {:induction false} DashedShape(s: string)
    ensures Dashed(s) == Lead(s) + Joined(Words(s)) + Trail(s)
  {
    if |s| > 1 {
      var c, t := s[0], s[1..];
      DashedShape(t);
      assert Last(t) == Last(s) && t[0] == s[1];
      if AlNum(c) && AlNum(s[1]) {
        JoinedGrows(c, Words(t));
        assert Dashed(s) == [c] + (Joined(Words(t)) + Trail(t));
      } else if AlNum(c) {
        WordThenGap(s);
      } else if AlNum(s[1]) {
        assert Lead(t) == "" && Words(s) == Words(t);
      } else {
        assert Lead(t) == "-" && Words(s) == Words(t);
      }
    }
  }

  lemma WordThenGap(s: string)
    requires |s| > 1 && AlNum(s[0]) && !AlNum(s[1])
    requires Dashed(s[1..]) == "-" + Joined(Words(s[1..])) + Trail(s[1..])
    ensures Dashed(s) == Joined(Words(s)) + Trail(s)
  {
    var c, t := s[0], s[1..];
    var ws := Words(t);
    assert Last(t) == Last(s) && t[0] == s[1];
    assert Words(s) == [[c]] + ws;
    if ws == [] {
      assert Joined(Words(s)) == [c];
      AllGap(t);
    } else {
      JoinedFront([c], ws);
      Regroup([c], Joined(ws), Trail(t));
    }
  }

  lemma JoinedFront(w: string, ws: seq<string>)
    requires ws != []
    ensures Joined([w] + ws) == w + "-" + Joined(ws)
  {
    assert ([w] + ws)[1..] == ws;
  }

  lemma Regroup(w: string, j: string, trail: string)
    ensures w + ("-" + j + trail) == w + "-" + j + trail
  {
  }

  lemma {:induction false} AllGap(s: string)
    requires Words(s) == []
    ensures forall i :: 0 <= i < |s| ==> !AlNum(s[i])
  {
    if s != "" {
      AllGap(s[1..]);
      assert forall i :: 1 <= i < |s| ==> s[i] == s[1..][i - 1];
    }
  }

  lemma StripsEnds(lead: string, j: string, trail: string)
    requires lead == "" || lead == "-"
    requires trail == "" || trail == "-"
    requires NormalForm(j)
    ensures Stripped(lead + j + trail) == j
  {
    var t := j + trail;
    var u := lead + j + trail;
    assert t[0] == j[0] && StripLeft(t) == t;
    if lead == "" {
      assert u == t;
    } else {
      assert u[1..] == t && u[0] == '-';
    }
    assert StripLeft(u) == t;
    assert StripRight(j) == j;
    if trail == "" {
      assert t == j;
    } else {
      AppendLast(j, '-');
    }
  }

  /** The two regular-expression passes compute the words joined by single dashes. */
  lemma SlugIsJoinedWords(s: string)
    ensures Stripped(Dashed(s)) == Joined(Words(s))
  {
    DashedShape(s);
    WordsAreWords(s);
    if Words(s) == [] {
      assert Dashed(s) == Lead(s);
      assert StripLeft(Lead(s)) == "";
    } else {
      JoinedIsNormal(Words(s));
      StripsEnds(Lead(s), Joined(Words(s)), Trail(s));
    }
  }

  lemma {:induction false} DropLastKeepsWords(s: string)
    requires s != "" && !AlNum(Last(s))
    ensures Words(ButLast(s)) == Words(s)
  {
    if |s| > 1 {
      DropLastKeepsWords(s[1..]);
      assert ButLast(s)[1..] == ButLast(s[1..]);
      if |s| == 2 {
        assert ButLast(s) == [s[0]];
      }
    }
  }

  lemma {:induction false} TrimLeftKeepsWords(s: string)
    ensures Words(TrimLeft(s)) == Words(s)
  {
    if s != "" && Blank(s[0]) {
      TrimLeftKeepsWords(s[1..]);
    }
  }

  lemma {:induction false} TrimRightKeepsWords(s: string)
    ensures Words(TrimRight(s)) == Words(s)
  {
    if s != "" && Blank(Last(s)) {
      DropLastKeepsWords(s);
      TrimRightKeepsWords(ButLast(s));
    }
  }

  /** `trim` is redundant: leaving it out never changes the slug. */
  lemma TrimIsRedundant(s: string)
    ensures Stripped(Dashed(Trim(s))) == Stripped(Dashed(s))
  {
    TrimLeftKeepsWords(s);
    TrimRightKeepsWords(TrimLeft(s));
    SlugIsJoinedWords(s);
    SlugIsJoinedWords(Trim(s));
  }

  /** For every name the base is a nonempty slug in normal form. */
  lemma BaseIsNormal(name: string, fallback: string)
    requires NormalForm(fallback)
    ensures NormalForm(Base(name, fallback))
    ensures Base(name, fallback) == if Words(Lower(name)) == [] then fallback else Joined(Words(Lower(name)))
  {
    var s := Lower(name);
    TrimIsRedundant(s);
    SlugIsJoinedWords(s);
    WordsAreWords(s);
    if Words(s) != [] {
      JoinedIsNormal(Words(s));
    }
  }

  lemma {:induction false} NormalIsDashed(s: string)
    requires forall i :: 0 <= i < |s| ==> AlNum(s[i]) || s[i] == '-'
    requires forall i :: 0 <= i < |s| - 1 ==> s[i] != '-' || s[i + 1] != '-'
    ensures Dashed(s) == s
  {
    if s != "" {
      NormalIsDashed(s[1..]);
      assert s == [s[0]] + s[1..];
    }
  }

  /** Slugifying a slug gives it back. */
  lemma BaseIdempotent(slug: string, fallback: string)
    requires NormalForm(slug)
    ensures Base(slug, fallback) == slug
  {
    forall i | 0 <= i < |slug| ensures LowerChar(slug[i]) == slug[i] && !Blank(slug[i]) {}
    assert Lower(slug) == slug;
    assert Trim(slug) == slug;
    NormalIsDashed(slug);
  }

  // ----- The search for a free slug ------------------------------------------

  /** The k-th slug the search tries: the base, then base-2, base-3, ... */
  function Candidate(base: string, k: nat): string
    requires k >= 1
  {
    if k == 1 then base else base + "-" + Decimal.Print(k)
  }

  lemma CandidatesDiffer(base: string, j: nat, k: nat)
    requires 1 <= j < k
    ensures Candidate(base, j) != Candidate(base, k)
  {
    if j == 1 {
      assert |Candidate(base, k)| > |base|;
    } else if Candidate(base, j) == Candidate(base, k) {
      assert Candidate(base, j)[|base| + 1..] == Decimal.Print(j);
      assert Candidate(base, k)[|base| + 1..] == Decimal.Print(k);
      Decimal.PrintInjective(j, k);
    }
  }

  lemma CandidateIsNormal(base: string, k: nat)
    requires NormalForm(base) && k >= 1
    ensures NormalForm(Candidate(base, k))
  {
    if k > 1 {
      Decimal.PrintsDigits(k);
      var d := Decimal.Print(k);
      var s := base + "-" + d;
      forall i | 0 <= i < |s| ensures AlNum(s[i]) || s[i] == '-' {
        assert s[i] == if i < |base| then base[i] else if i == |base| then '-' else d[i - |base| - 1];
      }
      forall i | 0 <= i < |s| - 1 ensures s[i] != '-' || s[i + 1] != '-' {
        if i < |base| { assert s[i] == base[i]; } else { assert s[i + 1] == d[i - |base|]; }
      }
    }
  }

  /** `slug` is the first candidate that is not taken. */
  ghost predicate FirstFree(taken: set<string>, base: string, slug: string) {
    exists k: nat :: k >= 1 && FirstFreeAt(taken, base, slug, k)
  }

  ghost predicate FirstFreeAt(taken: set<string>, base: string, slug: string, k: nat)
    requires k >= 1
  {
    && slug == Candidate(base, k) && slug !in taken
    && forall j: nat :: 1 <= j < k ==> Candidate(base, j) in taken
  }

  lemma FirstFreeUnique(taken: set<string>, base: string, a: string, b: string)
    requires FirstFree(taken, base, a) && FirstFree(taken, base, b)
    ensures a == b
  {
    var j: nat :| j >= 1 && FirstFreeAt(taken, base, a, j);
    var k: nat :| k >= 1 && FirstFreeAt(taken, base, b, k);
    assert j == k by {
      if j < k || k < j {
        assert false;
      }
    }
  }

  /**
   * The loop of both services. `checks` counts its existence queries; the tried
   * candidates are distinct members of `taken`, which bounds the search.
   */
  method UniqueSlug(taken: set<string>, name: string, fallback: string) returns (slug: string, checks: nat)
    ensures FirstFree(taken, Base(name, fallback), slug)
    ensures 1 <= checks <= |taken| + 1
    ensures slug == Base(name, fallback) + if checks == 1 then "" else "-" + Decimal.Print(checks)
    ensures slug == Candidate(Base(name, fallback), checks)
  {
    var base := Base(name, fallback);
    slug := base;
    var counter := 2;
    checks := 1;
    ghost var tried: set<string> := {};
    while slug in taken
      invariant counter == checks + 1 && checks >= 1
      invariant slug == Candidate(base, checks)
      invariant forall j: nat :: 1 <= j < checks ==> Candidate(base, j) in tried
      invariant forall t :: t in tried ==> exists j: nat :: 1 <= j < checks && t == Candidate(base, j)
      invariant tried <= taken && |tried| == checks - 1
      decreases |taken| - |tried|
    {
      forall j: nat | 1 <= j < checks ensures Candidate(base, j) != slug {
        CandidatesDiffer(base, j, checks);
      }
      assert slug !in tried;
      SubsetSize(tried + {slug}, taken);
      tried := tried + {slug};
      slug := base + "-" + Decimal.Print(counter);
      counter := counter + 1;
      checks := checks + 1;
    }
    SubsetSize(tried, taken);
    assert FirstFreeAt(taken, base, slug, checks);
  }

  lemma {:induction false} SubsetSize<T>(a: set<T>, b: set<T>)
    requires a <= b
    ensures |a| <= |b|
    decreases a
  {
    if a != {} {
      var x :| x in a;
      SubsetSize(a - {x}, b - {x});
    }
  }

  function Taken(slugs: seq<string>): set<string> {
    set s | s in slugs
  }

  /** A table with a unique slug column (organizations, marketplace_apis). */
  class Registry {
    const fallback: string
    var slugs: seq<string>

    ghost predicate Valid()
      reads this
    {
      && NormalForm(fallback)
      && (forall i :: 0 <= i < |slugs| ==> NormalForm(slugs[i]))
      && (forall i, j :: 0 <= i < j < |slugs| ==> slugs[i] != slugs[j])
    }

    constructor (fallback: string)
      requires NormalForm(fallback)
      ensures Valid() && slugs == [] && this.fallback == fallback
    {
      this.fallback := fallback;
      slugs := [];
    }

    method Create(name: string) returns (slug: string)
      requires Valid()
      modifies this`slugs
      ensures Valid() && slugs == old(slugs) + [slug]
      ensures FirstFree(Taken(old(slugs)), Base(name, fallback), slug)
    {
      var checks;
      var taken := Taken(slugs);
      slug, checks := UniqueSlug(taken, name, fallback);
      BaseIsNormal(name, fallback);
      CandidateIsNormal(Base(name, fallback), checks);
      forall i | 0 <= i < |slugs| ensures slugs[i] != slug { assert slugs[i] in taken; }
      slugs := slugs + [slug];
    }

    /** Any sequence of creations keeps the slugs distinct and in normal form. */
    method CreateAll(names: seq<string>) returns (made: seq<string>)
      requires Valid()
      modifies this`slugs
      ensures Valid() && slugs == old(slugs) + made && |made| == |names|
      ensures forall i :: 0 <= i < |names| ==>
        FirstFree(Taken(old(slugs) + made[..i]), Base(names[i], fallback), made[i])
    {
      made := [];
      for n := 0 to |names|
        invariant Valid() && slugs == old(slugs) + made && |made| == n
        invariant forall i :: 0 <= i < n ==>
          FirstFree(Taken(old(slugs) + made[..i]), Base(names[i], fallback), made[i])
      {
        var slug := Create(names[n]);
        assert made == (made + [slug])[..n];
        assert forall i :: 0 <= i < n ==> made[..i] == (made + [slug])[..i];
        made := made + [slug];
        assert old(slugs) + made[..n] + [slug] == old(slugs) + made;
      }
    }
  }
}

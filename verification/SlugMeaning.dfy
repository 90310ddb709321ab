/** What a base slug keeps of its name: every letter and digit, in lower case, and a dash for each gap. */
module SlugMeaning {
  import opened Basics
  import opened Slug

  const ORG_FALLBACK := "org"
  const API_FALLBACK := "api"

  /** Both services' fallback words are slugs themselves. */
  lemma FallbacksAreNormal()
    ensures NormalForm(ORG_FALLBACK) && NormalForm(API_FALLBACK)
  {
  }

  predicate Capital(c: char) {
    'A' <= c <= 'Z'
  }

  predicate LetterOrDigit(c: char) {
    Capital(c) || 'a' <= c <= 'z' || '0' <= c <= '9'
  }

  /** d is c, or the lower-case letter at the place in the alphabet of the capital c. */
  predicate LowerCaseOf(c: char, d: char) {
    if Capital(c) then 'a' <= d <= 'z' && d as int - 'a' as int == c as int - 'A' as int else d == c
  }

  /** The two characters differ at most in case. */
  predicate CaseMates(c: char, d: char) {
    c == d || LowerCaseOf(c, d) || LowerCaseOf(d, c)
  }

  /** Names that agree letter by letter up to case have the same base slug. */
  lemma BaseIgnoresCase(a: string, b: string, fallback: string)
    requires |a| == |b| && forall i :: 0 <= i < |a| ==> CaseMates(a[i], b[i])
    ensures Base(a, fallback) == Base(b, fallback)
  {
    assert Lower(a) == Lower(b);
  }

  // ----- The letters ---------------------------------------------------------

  /** The letters and digits of a name, in order. */
  ghost function Kept(s: string): string {
    if s == "" then "" else (if LetterOrDigit(s[0]) then [s[0]] else "") + Kept(s[1..])
  }

  ghost function WithoutDashes(s: string): string {
    if s == "" then "" else (if s[0] != '-' then [s[0]] else "") + WithoutDashes(s[1..])
  }

  ghost function OnlyAlNum(s: string): string {
    if s == "" then "" else (if AlNum(s[0]) then [s[0]] else "") + OnlyAlNum(s[1..])
  }

  ghost predicate LoweredTo(kept: string, t: string) {
    |kept| == |t| && forall i :: 0 <= i < |t| ==> LowerCaseOf(kept[i], t[i])
  }

  lemma {:induction false} LowerKeeps(s: string)
    ensures LoweredTo(Kept(s), OnlyAlNum(Lower(s)))
  {
    if s != "" {
      LowerKeeps(s[1..]);
      assert Lower(s)[1..] == Lower(s[1..]) && Lower(s)[0] == LowerChar(s[0]);
    }
  }

  lemma {:induction false} OnlyAlNumAppends(a: string, b: string)
    ensures OnlyAlNum(a + b) == OnlyAlNum(a) + OnlyAlNum(b)
  {
    if a == "" {
      assert a + b == b;
    } else {
      OnlyAlNumAppends(a[1..], b);
      assert (a + b)[1..] == a[1..] + b && (a + b)[0] == a[0];
      var head := if AlNum(a[0]) then [a[0]] else "";
      assert head + (OnlyAlNum(a[1..]) + OnlyAlNum(b)) == (head + OnlyAlNum(a[1..])) + OnlyAlNum(b);
    }
  }

  /** Joining the words of a text loses none of its letters and digits. */
  lemma {:induction false} JoinedKeepsLetters(s: string)
    ensures OnlyAlNum(Joined(Words(s))) == OnlyAlNum(s)
  {
    if s != "" {
      var c, t := s[0], s[1..];
      JoinedKeepsLetters(t);
      if AlNum(c) {
        if |s| > 1 && AlNum(s[1]) {
          JoinedGrows(c, Words(t));
          assert ([c] + Joined(Words(t)))[1..] == Joined(Words(t));
        } else if Words(t) == [] {
          assert Words(s) == [[c]];
          assert OnlyAlNum(s) == [c] + OnlyAlNum(t);
        } else {
          JoinedFront([c], Words(t));
          OnlyAlNumAppends([c] + "-", Joined(Words(t)));
          assert OnlyAlNum([c] + "-") == [c] by { assert ([c] + "-")[1..] == "-"; }
        }
      }
    }
  }

  lemma {:induction false} DashesAreTheRest(s: string)
    requires forall i :: 0 <= i < |s| ==> AlNum(s[i]) || s[i] == '-'
    ensures WithoutDashes(s) == OnlyAlNum(s)
  {
    if s != "" {
      DashesAreTheRest(s[1..]);
    }
  }

  lemma {:induction false} NoLettersNoWords(s: string)
    ensures Words(s) == [] <==> OnlyAlNum(s) == ""
  {
    if s != "" {
      NoLettersNoWords(s[1..]);
    }
  }

  /**
   * The base slug's characters other than dashes are the name's letters and digits, in
   * order, each capital in lower case; only a name that has none gets the fallback.
   */
  lemma BaseKeepsLetters(name: string, fallback: string)
    requires NormalForm(fallback)
    ensures Kept(name) == "" ==> Base(name, fallback) == fallback
    ensures Kept(name) != "" ==> LoweredTo(Kept(name), WithoutDashes(Base(name, fallback)))
  {
    var s := Lower(name);
    LowerKeeps(name);
    NoLettersNoWords(s);
    BaseIsNormal(name, fallback);
    if Kept(name) != "" {
      JoinedKeepsLetters(s);
      DashesAreTheRest(Base(name, fallback));
    }
  }

  // ----- The gaps ------------------------------------------------------------

  predicate Gap(s: string) {
    s != "" && forall i :: 0 <= i < |s| ==> !LetterOrDigit(s[i])
  }

  predicate Blanks(s: string) {
    forall i :: 0 <= i < |s| ==> !AlNum(s[i])
  }

  lemma {:induction false} GapHasNoWords(s: string, t: string)
    requires Blanks(s)
    ensures Words(s + t) == Words(t)
  {
    if s == "" {
      assert s + t == t;
    } else {
      assert (s + t)[1..] == s[1..] + t;
      GapHasNoWords(s[1..], t);
    }
  }

  lemma GrowAppends(c: char, a: seq<string>, b: seq<string>)
    requires a != []
    ensures Grow(c, a + b) == Grow(c, a) + b
  {
    assert (a + b)[1..] == a[1..] + b;
  }

  lemma {:induction false} WordsAcrossGap(s: string, gap: string, t: string)
    requires gap != "" && Blanks(gap)
    ensures Words(s + gap + t) == Words(s) + Words(t)
  {
    if s == "" {
      assert s + gap + t == gap + t;
      GapHasNoWords(gap, t);
    } else {
      assert (s + gap + t)[1..] == s[1..] + gap + t;
      WordsAcrossGap(s[1..], gap, t);
      if AlNum(s[0]) {
        if |s| > 1 {
          assert (s + gap + t)[1] == s[1];
          if AlNum(s[1]) { GrowAppends(s[0], Words(s[1..]), Words(t)); }
        } else {
          assert (s + gap + t)[1] == gap[0];
        }
      }
    }
  }

  lemma {:induction false} JoinedAppends(a: seq<string>, b: seq<string>)
    requires a != [] && b != []
    ensures Joined(a + b) == Joined(a) + "-" + Joined(b)
  {
    if |a| == 1 {
      assert a == [a[0]];
      JoinedFront(a[0], b);
    } else {
      JoinedAppends(a[1..], b);
      assert (a + b)[1..] == a[1..] + b && (a + b)[0] == a[0];
      Regroup(a[0], Joined(a[1..]), "-" + Joined(b));
      assert a[0] + "-" + (Joined(a[1..]) + "-" + Joined(b)) == a[0] + "-" + Joined(a[1..]) + "-" + Joined(b);
    }
  }

  lemma LowerOfParts(a: string, gap: string, b: string)
    ensures Lower(a + gap + b) == Lower(a) + Lower(gap) + Lower(b)
  {
  }

  /**
   * A gap between letters becomes one dash, however long it is; at an end of the name
   * it leaves nothing.
   */
  lemma GapBecomesDash(a: string, gap: string, b: string, fallback: string)
    requires Gap(gap) && NormalForm(fallback)
    ensures var whole := Base(a + gap + b, fallback);
      && (Kept(a) != "" && Kept(b) != "" ==> whole == Base(a, fallback) + "-" + Base(b, fallback))
      && (Kept(a) == "" ==> whole == Base(b, fallback)) && (Kept(b) == "" ==> whole == Base(a, fallback))
  {
    LowerOfParts(a, gap, b);
    WordsAcrossGap(Lower(a), Lower(gap), Lower(b));
    BaseIsNormal(a + gap + b, fallback);
    BaseIsNormal(a, fallback);
    BaseIsNormal(b, fallback);
    LowerKeeps(a);
    LowerKeeps(b);
    NoLettersNoWords(Lower(a));
    NoLettersNoWords(Lower(b));
    var u, v := Words(Lower(a)), Words(Lower(b));
    if u != [] && v != [] {
      JoinedAppends(u, v);
    } else {
      assert u + [] == u && [] + v == v;
    }
  }

  lemma {:induction false} OneWord(s: string)
    requires s != "" && forall i :: 0 <= i < |s| ==> AlNum(s[i])
    ensures Words(s) == [s]
  {
    if |s| > 1 {
      OneWord(s[1..]);
      assert [s[0]] + s[1..] == s;
    } else {
      assert s == [s[0]];
    }
  }

  lemma LowerOfLetters(s: string)
    requires forall i :: 0 <= i < |s| ==> LetterOrDigit(s[i])
    ensures LoweredTo(s, Lower(s)) && forall i :: 0 <= i < |s| ==> AlNum(Lower(s)[i])
  {
  }

  lemma OneWordBase(name: string, fallback: string)
    requires NormalForm(fallback) && Words(Lower(name)) == [Lower(name)]
    ensures Base(name, fallback) == Lower(name)
  {
    BaseIsNormal(name, fallback);
    assert Joined([Lower(name)]) == Lower(name);
  }

  /** A name without a gap becomes one word: no dash is put inside. */
  lemma WordHasNoDash(name: string, fallback: string)
    requires NormalForm(fallback) && name != "" && forall i :: 0 <= i < |name| ==> LetterOrDigit(name[i])
    ensures LoweredTo(name, Base(name, fallback))
  {
    LowerOfLetters(name);
    OneWord(Lower(name));
    OneWordBase(name, fallback);
  }
}

/** One string per inbox (pwa/services/trial.py, `normalise_email`). Letters other than ASCII's keep their case. */
module Mailbox {

  predicate IsSpace(c: char) {
    c == ' ' || '\t' <= c <= '\r' || '\U{1C}' <= c <= '\U{1F}' || c == '\U{85}' || c == '\U{A0}' || c == '\U{1680}'
    || '\U{2000}' <= c <= '\U{200A}' || c == '\U{2028}' || c == '\U{2029}' || c == '\U{202F}' || c == '\U{205F}' || c == '\U{3000}'
  }

  predicate SpaceFree(s: string) {
    forall i :: 0 <= i < |s| ==> !IsSpace(s[i])
  }

  function LowerChar(c: char): char {
    if 'A' <= c <= 'Z' then c + 32 as char else c
  }

  function Lower(s: string): (r: string)
    ensures |r| == |s| && forall i :: 0 <= i < |s| ==> r[i] == LowerChar(s[i])
  {
    seq(|s|, i requires 0 <= i < |s| => LowerChar(s[i]))
  }

  function Strip(s: string): string
    decreases |s|
  {
    if s != "" && IsSpace(s[0]) then Strip(s[1..])
    else if s != "" && IsSpace(s[|s| - 1]) then Strip(s[..|s| - 1])
    else s
  }

  /** What comes before the first `c`: `split(c, 1)[0]`. */
  function Before(s: string, c: char): (r: string)
    ensures r <= s && c !in r
  {
    if s == "" || s[0] == c then "" else [s[0]] + Before(s[1..], c)
  }

  function Without(s: string, c: char): (r: string)
    ensures c !in r
  {
    if s == "" then ""
    else if s[0] == c then Without(s[1..], c)
    else [s[0]] + Without(s[1..], c)
  }

  /** Where the domain begins: just after the last '@', or at 0 when there is none (`rpartition`). */
  function DomainStart(s: string): (k: nat)
    ensures k <= |s| && '@' !in s[k..] && (0 < k ==> s[k - 1] == '@')
  {
    if s == "" then 0
    else if s[|s| - 1] == '@' then |s|
    else DomainStart(s[..|s| - 1])
  }

  function Local(s: string): string {
    var k := DomainStart(s);
    if k == 0 then "" else s[..k - 1]
  }

  function Domain(s: string): string {
    s[DomainStart(s)..]
  }

  function Alias(domain: string): string {
    if domain == "googlemail.com" then "gmail.com"
    else if domain == "ya.ru" then "yandex.ru"
    else domain
  }

  predicate Dotless(domain: string) {
    domain == "gmail.com" || domain == "googlemail.com"
  }

  function Canonical(local: string, domain: string): string {
    var d := Alias(domain);
    var l := Before(local, '+');
    (if Dotless(d) then Without(l, '.') else l) + "@" + d
  }

  function Normalise(email: string): string {
    var e := Lower(Strip(email));
    Canonical(Local(e), Domain(e))
  }

  // ---------------------------------------------------------------- lemmas

  lemma {:induction false} SplitAt(l: string, d: string)
    requires '@' !in d
    ensures Local(l + "@" + d) == l && Domain(l + "@" + d) == d
    decreases |d|
  {
    var s := l + "@" + d;
    assert DomainStart(s) == |l| + 1 by {
      if d == "" {
        assert s[|s| - 1] == '@';
      } else {
        assert s[..|s| - 1] == l + "@" + d[..|d| - 1];
        assert s[|s| - 1] == d[|d| - 1];
        SplitAt(l, d[..|d| - 1]);
        assert Domain(s[..|s| - 1]) == d[..|d| - 1];
      }
    }
    assert s[..|l|] == l && s[|l| + 1..] == d;
  }

  lemma {:induction false} BeforeAppend(a: string, c: char, b: string)
    ensures Before(a + [c] + b, c) == Before(a, c)
  {
    if a != "" && a[0] != c {
      assert (a + [c] + b)[1..] == a[1..] + [c] + b;
      BeforeAppend(a[1..], c, b);
    }
  }

  lemma {:induction false} BeforeClean(a: string, c: char)
    requires c !in a
    ensures Before(a, c) == a
  {
    if a != "" {
      BeforeClean(a[1..], c);
    }
  }

  lemma {:induction false} WithoutAppend(a: string, b: string, c: char)
    ensures Without(a + b, c) == Without(a, c) + Without(b, c)
  {
    if a == "" {
      assert a + b == b;
    } else {
      assert (a + b)[1..] == a[1..] + b;
      WithoutAppend(a[1..], b, c);
    }
  }

  lemma {:induction false} WithoutClean(a: string, c: char)
    requires c !in a
    ensures Without(a, c) == a
  {
    if a != "" {
      WithoutClean(a[1..], c);
    }
  }

  predicate IsLower(s: string) {
    forall i :: 0 <= i < |s| ==> LowerChar(s[i]) == s[i]
  }

  lemma LowerFixed(s: string)
    requires IsLower(s)
    ensures Lower(s) == s
  {
  }

  lemma LowerJoin(a: string, b: string)
    ensures Lower(a + b) == Lower(a) + Lower(b)
  {
  }

  // ---------------------------------------------------------------- white space at the ends

  function TrimLeft(s: string): (r: string)
    ensures |r| <= |s| && (r == s || (s != "" && IsSpace(s[0])))
    ensures r != "" ==> !IsSpace(r[0])
  {
    if s != "" && IsSpace(s[0]) then TrimLeft(s[1..]) else s
  }

  function TrimRight(s: string): (r: string)
    ensures r <= s && (r != "" ==> !IsSpace(r[|r| - 1]))
  {
    if s != "" && IsSpace(s[|s| - 1]) then TrimRight(s[..|s| - 1]) else s
  }

  lemma {:induction false} StripEnds(s: string)
    ensures Strip(s) == TrimRight(TrimLeft(s))
    decreases |s|
  {
    if s != "" && IsSpace(s[0]) {
      StripEnds(s[1..]);
    } else if s != "" && IsSpace(s[|s| - 1]) {
      StripEnds(s[..|s| - 1]);
    }
  }

  lemma {:induction false} TrimLeftJoin(a: string, b: string)
    requires b != "" && !IsSpace(b[0])
    ensures TrimLeft(a + b) == TrimLeft(a) + b
  {
    if a == "" {
      assert a + b == b;
    } else if IsSpace(a[0]) {
      assert (a + b)[1..] == a[1..] + b;
      TrimLeftJoin(a[1..], b);
    }
  }

  lemma {:induction false} TrimRightJoin(a: string, b: string)
    requires a != "" && !IsSpace(a[|a| - 1])
    ensures TrimRight(a + b) == a + TrimRight(b)
    decreases |b|
  {
    if b == "" {
      assert a + b == a;
    } else if IsSpace(b[|b| - 1]) {
      assert (a + b)[..|a + b| - 1] == a + b[..|b| - 1];
      TrimRightJoin(a, b[..|b| - 1]);
    }
  }

  lemma StripJoin(l: string, d: string)
    ensures Strip(l + "@" + d) == TrimLeft(l) + "@" + TrimRight(d)
  {
    var at := "@";
    StripEnds(l + at + d);
    TrimLeftMark(l, at, d);
    TrimRightJoin(TrimLeft(l) + at, d);
  }

  lemma TrimLeftMark(l: string, m: string, d: string)
    requires |m| == 1 && !IsSpace(m[0])
    ensures TrimLeft(l + m + d) == TrimLeft(l) + m + d
  {
    assert l + m + d == l + (m + d);
    TrimLeftJoin(l, m + d);
    assert TrimLeft(l) + (m + d) == TrimLeft(l) + m + d;
  }

  lemma LowerAt(l: string, d: string)
    ensures Lower(l + "@" + d) == Lower(l) + "@" + Lower(d)
  {
  }

  /** An address is split at its last '@', lower-cased, once white space at either end is gone. */
  lemma NormaliseJoin(l: string, d: string)
    requires '@' !in d
    ensures Normalise(l + "@" + d) == Canonical(Lower(TrimLeft(l)), Lower(TrimRight(d)))
  {
    StripJoin(l, d);
    LowerAt(TrimLeft(l), TrimRight(d));
    LowerKeepsAt(TrimRight(d));
    SplitAt(Lower(TrimLeft(l)), Lower(TrimRight(d)));
  }

  lemma LowerKeepsAt(d: string)
    requires '@' !in d
    ensures '@' !in Lower(d)
  {
  }

  // ---------------------------------------------------------------- spellings of one inbox

  lemma {:induction false} StripLower(s: string)
    ensures Strip(Lower(s)) == Lower(Strip(s))
    decreases |s|
  {
    assert forall i :: 0 <= i < |s| ==> (IsSpace(Lower(s)[i]) <==> IsSpace(s[i]));
    if s != "" && IsSpace(s[0]) {
      assert Lower(s)[1..] == Lower(s[1..]);
      StripLower(s[1..]);
    } else if s != "" && IsSpace(s[|s| - 1]) {
      assert Lower(s)[..|s| - 1] == Lower(s[..|s| - 1]);
      StripLower(s[..|s| - 1]);
    }
  }

  /** The case of letters never tells two inboxes apart. */
  lemma CaseIsIgnored(email: string)
    ensures Normalise(Lower(email)) == Normalise(email)
  {
    StripLower(email);
    LowerFixed(Lower(Strip(email)));
  }

  /** Before a mark that is no white space, only the front is trimmed. */
  lemma TrimLowerMark(a: string, m: string, b: string)
    requires |m| == 1 && !IsSpace(m[0]) && LowerChar(m[0]) == m[0]
    ensures Lower(TrimLeft(a + m + b)) == Lower(TrimLeft(a)) + m + Lower(b)
  {
    assert a + m + b == a + (m + b);
    TrimLeftJoin(a, m + b);
    LowerJoin(TrimLeft(a), m + b);
    LowerJoin(m, b);
    assert Lower(m) == m;
    assert Lower(TrimLeft(a)) + (m + Lower(b)) == Lower(TrimLeft(a)) + m + Lower(b);
  }

  lemma TagDisappears(l: string, tag: string, d: string)
    ensures Canonical(l + "+" + tag, d) == Canonical(l, d)
  {
    assert l + "+" + tag == l + ['+'] + tag;
    BeforeAppend(l, '+', tag);
  }

  /** A "+tag" names the same inbox, whatever the provider. */
  lemma TagIsIgnored(l: string, tag: string, d: string)
    requires '@' !in d
    ensures Normalise(l + "+" + tag + "@" + d) == Normalise(l + "@" + d)
  {
    NormaliseJoin(l + "+" + tag, d);
    NormaliseJoin(l, d);
    TrimLowerMark(l, "+", tag);
    TagDisappears(Lower(TrimLeft(l)), Lower(tag), Lower(TrimRight(d)));
  }

  lemma {:induction false} BeforeSplit(a: string, b: string, c: char)
    ensures Before(a + b, c) == if c in a then Before(a, c) else a + Before(b, c)
  {
    if a == "" {
      assert a + b == b;
    } else {
      assert (a + b)[1..] == a[1..] + b;
      BeforeSplit(a[1..], b, c);
    }
  }

  /** What is left of a local part at Gmail. */
  function Bare(l: string): string {
    Without(Before(l, '+'), '.')
  }

  lemma DotDisappears(a: string, b: string)
    ensures Bare(a + "." + b) == Bare(a + b)
  {
    assert a + "." + b == a + ("." + b);
    BeforeSplit(a, "." + b, '+');
    BeforeSplit(a, b, '+');
    if '+' !in a {
      var t := Before(b, '+');
      BeforeSplit(".", b, '+');
      WithoutAppend(a, "." + t, '.');
      WithoutAppend(".", t, '.');
      WithoutAppend(a, t, '.');
    }
  }

  predicate AllSpace(s: string) {
    forall i :: 0 <= i < |s| ==> IsSpace(s[i])
  }

  lemma {:induction false} TrimLeftPrefix(a: string, b: string)
    ensures TrimLeft(a + b) == if AllSpace(a) then TrimLeft(b) else TrimLeft(a) + b
  {
    if a == "" {
      assert a + b == b;
    } else if IsSpace(a[0]) {
      assert (a + b)[1..] == a[1..] + b;
      TrimLeftPrefix(a[1..], b);
      assert AllSpace(a) <==> AllSpace(a[1..]);
    } else {
      assert !AllSpace(a);
    }
  }

  /** White space at the front of a bare local part stays: it is neither '+' nor '.'. */
  lemma {:induction false} SpacesStay(b: string)
    ensures |Bare(Lower(b))| == |Bare(Lower(TrimLeft(b)))| + |b| - |TrimLeft(b)|
  {
    if b != "" && IsSpace(b[0]) {
      SpacesStay(b[1..]);
      assert Lower(b)[1..] == Lower(b[1..]) && Lower(b)[0] == b[0];
      assert Before(Lower(b), '+') == [b[0]] + Before(Lower(b[1..]), '+');
    }
  }

  lemma SameLocal(x: string, y: string, e: string)
    ensures x + "@" + e == y + "@" + e <==> x == y
  {
    if x + "@" + e == y + "@" + e {
      assert |x| == |y|;
      assert x == (x + "@" + e)[..|x|] && y == (y + "@" + e)[..|y|];
    }
  }

  /** Whether a dot between `a` and `b` tells two bare local parts apart. */
  lemma DotTells(a: string, b: string)
    ensures Bare(Lower(TrimLeft(a + "." + b))) == Bare(Lower(TrimLeft(a + b)))
       <==> !(AllSpace(a) && b != "" && IsSpace(b[0]))
  {
    TrimLowerMark(a, ".", b);
    DotDisappears(Lower(TrimLeft(a)), Lower(b));
    TrimLeftPrefix(a, b);
    if AllSpace(a) {
      AllTrimmed(a);
      assert Lower(TrimLeft(a)) + Lower(b) == Lower(b);
      SpacesStay(b);
    } else {
      LowerJoin(TrimLeft(a), b);
    }
  }

  /**
   * For Gmail, under either of its domain names, a dot in the local part is ignored,
   * unless it stands between nothing but white space and white space: there it keeps
   * what follows from being trimmed.
   */
  lemma DotIsIgnored(a: string, b: string, d: string)
    requires '@' !in d && Dotless(Alias(Lower(TrimRight(d))))
    ensures Normalise(a + "." + b + "@" + d) == Normalise(a + b + "@" + d)
       <==> !(AllSpace(a) && b != "" && IsSpace(b[0]))
  {
    NormaliseJoin(a + "." + b, d);
    NormaliseJoin(a + b, d);
    DotTells(a, b);
    SameLocal(Bare(Lower(TrimLeft(a + "." + b))), Bare(Lower(TrimLeft(a + b))), Alias(Lower(TrimRight(d))));
  }

  lemma {:induction false} AllTrimmed(a: string)
    requires AllSpace(a)
    ensures TrimLeft(a) == ""
  {
    if a != "" {
      AllTrimmed(a[1..]);
    }
  }

  // ---------------------------------------------------------------- different inboxes

  /** A local part and a domain as they come, in lower case with nothing to trim. */
  predicate Plain(l: string, d: string) {
    IsLower(l) && IsLower(d) && '@' !in d && TrimLeft(l) == l && TrimRight(d) == d
  }

  lemma SameAddress(x: string, y: string, d: string, e: string)
    requires '@' !in d && '@' !in e
    ensures x + "@" + d == y + "@" + e <==> x == y && d == e
  {
    SplitAt(x, d);
    SplitAt(y, e);
  }

  /** The domains that name one provider. */
  function Provider(d: string): string {
    if d == "googlemail.com" || d == "gmail.com" then "gmail.com"
    else if d == "ya.ru" || d == "yandex.ru" then "yandex.ru"
    else d
  }

  lemma ProviderIsAlias(d: string)
    requires '@' !in d
    ensures Alias(d) == Provider(d) && '@' !in Alias(d) && (Dotless(Alias(d)) <==> Provider(d) == "gmail.com")
  {
  }

  /**
   * Two addresses are one inbox if and only if their domains name one provider and
   * their local parts, up to the first '+', are equal: at Gmail without the dots,
   * elsewhere dots and all.
   */
  lemma SameInboxExactly(l: string, d: string, m: string, e: string)
    requires Plain(l, d) && Plain(m, e)
    ensures Normalise(l + "@" + d) == Normalise(m + "@" + e) <==>
      Provider(d) == Provider(e) &&
      if Provider(d) == "gmail.com" then Bare(l) == Bare(m) else Before(l, '+') == Before(m, '+')
  {
    NormaliseJoin(l, d);
    NormaliseJoin(m, e);
    LowerFixed(l);
    LowerFixed(d);
    LowerFixed(m);
    LowerFixed(e);
    ProviderIsAlias(d);
    ProviderIsAlias(e);
    SameAddress(Kept(l, d), Kept(m, e), Alias(d), Alias(e));
  }

  /** What comes before a mark ends where the mark first stands. */
  lemma {:induction false} BeforeIsFirst(s: string, c: char)
    ensures |Before(s, c)| <= |s| && Before(s, c) == s[..|Before(s, c)|] && c !in Before(s, c)
    ensures |Before(s, c)| < |s| ==> s[|Before(s, c)|] == c
  {
    if s != "" && s[0] != c {
      BeforeIsFirst(s[1..], c);
    }
  }

  /** Dropping a mark drops nothing else. */
  lemma {:induction false} WithoutDropsOnly(s: string, c: char)
    ensures multiset(Without(s, c)) == multiset(s)[c := 0]
  {
    if s != "" {
      WithoutDropsOnly(s[1..], c);
      assert s == [s[0]] + s[1..];
    }
  }

  // ---------------------------------------------------------------- twice

  /** Nothing but dots before white space: without the dots it begins with white space. */
  predicate HidesSpace(l: string) {
    l != "" && (IsSpace(l[0]) || (l[0] == '.' && HidesSpace(l[1..])))
  }

  lemma {:induction false} BareBegins(l: string)
    ensures Bare(l) != "" && IsSpace(Bare(l)[0]) <==> HidesSpace(l)
  {
    if l != "" && l[0] == '.' {
      BareBegins(l[1..]);
      assert Before(l, '+') == ['.'] + Before(l[1..], '+');
    }
  }

  /** The local part as an address keeps it. */
  function Kept(l: string, d: string): string {
    if Dotless(Alias(d)) then Bare(l) else Before(l, '+')
  }

  lemma {:induction false} WithoutKeeps(s: string, c: char, d: char)
    requires IsLower(s)
    ensures IsLower(Without(s, c)) && (d !in s ==> d !in Without(s, c))
  {
    if s != "" {
      WithoutKeeps(s[1..], c, d);
    }
  }

  predicate KeptWell(k: string, e: string) {
    IsLower(k) && '+' !in k && (Dotless(e) ==> '.' !in k)
  }

  lemma KeptIsKept(l: string, d: string)
    requires IsLower(l)
    ensures Canonical(l, d) == Kept(l, d) + "@" + Alias(d) && KeptWell(Kept(l, d), Alias(d))
  {
    var b := Before(l, '+');
    assert IsLower(b);
    WithoutKeeps(b, '.', '+');
  }

  lemma AliasFixed(d: string)
    requires IsLower(d) && '@' !in d && TrimRight(d) == d
    ensures var e := Alias(d); IsLower(e) && '@' !in e && TrimRight(e) == e && Alias(e) == e
  {
  }

  lemma CanonicalFixed(k: string, e: string)
    requires KeptWell(k, e) && Alias(e) == e
    ensures Canonical(k, e) == k + "@" + e
  {
    BeforeClean(k, '+');
    if Dotless(e) {
      WithoutClean(k, '.');
    }
  }

  /** Normalising what was kept only trims it. */
  lemma NormaliseKept(l: string, d: string)
    requires IsLower(l) && IsLower(d) && '@' !in d && TrimRight(d) == d
    ensures Normalise(Canonical(l, d)) == TrimLeft(Kept(l, d)) + "@" + Alias(d)
  {
    var k, e := Kept(l, d), Alias(d);
    KeptIsKept(l, d);
    AliasFixed(d);
    NormaliseJoin(k, e);
    LowerFixed(e);
    TrimLeftIn(k);
    LowerFixed(TrimLeft(k));
    CanonicalFixed(TrimLeft(k), e);
  }

  lemma {:induction false} TrimLeftIn(k: string)
    ensures forall c :: c in TrimLeft(k) ==> c in k
    ensures IsLower(k) ==> IsLower(TrimLeft(k))
  {
    if k != "" && IsSpace(k[0]) {
      TrimLeftIn(k[1..]);
    }
  }

  predicate Trimmed(e: string) {
    e != "" ==> !IsSpace(e[0]) && !IsSpace(e[|e| - 1])
  }

  lemma StripTrims(s: string)
    ensures Trimmed(Strip(s))
  {
  }

  lemma LowerTrimmed(s: string)
    requires Trimmed(s)
    ensures Trimmed(Lower(s)) && IsLower(Lower(s))
  {
  }

  lemma PartsOf(e: string)
    requires Trimmed(e) && IsLower(e)
    ensures IsLower(Local(e)) && IsLower(Domain(e)) && '@' !in Domain(e) && TrimRight(Domain(e)) == Domain(e)
    ensures Local(e) != "" ==> !IsSpace(Local(e)[0])
  {
  }

  /**
   * Normalising twice is normalising once, unless a Gmail local part has white space
   * right after its leading dots: without them the white space is at the front.
   */
  lemma NormaliseTwiceExactly(email: string)
    ensures var e := Lower(Strip(email));
      Normalise(Normalise(email)) == Normalise(email) <==> !(Dotless(Alias(Domain(e))) && HidesSpace(Local(e)))
  {
    var e := Lower(Strip(email));
    var l, d := Local(e), Domain(e);
    StripTrims(email);
    LowerTrimmed(Strip(email));
    PartsOf(e);
    NormaliseKept(l, d);
    KeptIsKept(l, d);
    var k := Kept(l, d);
    BareBegins(l);
    SameLocal(TrimLeft(k), k, Alias(d));
    if !Dotless(Alias(d)) {
      assert k <= l;
    }
    TrimShortens(k);
  }

  lemma TrimShortens(k: string)
    ensures |TrimLeft(k)| < |k| <==> k != "" && IsSpace(k[0])
  {
  }

  lemma HidingParts(l: string, d: string)
    requires IsLower(l) && IsLower(d) && '@' !in d && TrimLeft(l) == l && TrimRight(d) == d
    requires Dotless(Alias(d)) && HidesSpace(l)
    ensures Normalise(Normalise(l + "@" + d)) != Normalise(l + "@" + d)
  {
    StripJoin(l, d);
    LowerAt(l, d);
    LowerFixed(l);
    LowerFixed(d);
    SplitAt(l, d);
    NormaliseTwiceExactly(l + "@" + d);
  }

  /** A dot in front of a space at Gmail is gone the first time, the space it kept the second. */
  lemma NotTwice()
    ensures Normalise(Normalise(". a" + "@" + "gmail.com")) != Normalise(". a" + "@" + "gmail.com")
  {
    var l := ". a";
    assert l[0] == '.' && IsSpace(l[1..][0]);
    assert TrimRight("gmail.com") == "gmail.com";
    HidingParts(l, "gmail.com");
  }

  lemma {:induction false} NothingHidden(l: string)
    requires SpaceFree(l)
    ensures !HidesSpace(l)
  {
    if l != "" {
      NothingHidden(l[1..]);
    }
  }

  lemma {:induction false} StripFree(s: string)
    requires SpaceFree(s)
    ensures Strip(s) == s
  {
  }

  /** Normalising twice is normalising once, for addresses without white space. */
  lemma NormaliseIdempotent(email: string)
    requires SpaceFree(email)
    ensures Normalise(Normalise(email)) == Normalise(email)
  {
    StripFree(email);
    NothingHidden(Local(Lower(email)));
    NormaliseTwiceExactly(email);
  }
}

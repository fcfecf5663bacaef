/**
 * The two hand-written e-mail regular expressions of the login flow,
 *   `^[A-Za-z0-9._%+-]+@[A-Za-z0-9.-]+\.[A-Za-z]{2,}$`   (the view-model's)
 *   `^[A-Za-z0-9._%+-]+@[A-Za-z0-9.-]+\.[A-Z|a-z]{2,}$`  (the screen's)
 * which differ only in the class of the top-level domain: inside brackets
 * `|` is a literal, so the second one also admits '|'.
 *
 * `Matches` is the regex read as a whole-string match (some split of the
 * input into the four parts exists); `IsValidEmail` decides it without
 * search, and the two are proved equal.
 */
module EmailPattern {
  import opened Wrappers

  predicate IsAsciiLetter(c: char) {
    'A' <= c <= 'Z' || 'a' <= c <= 'z'
  }

  predicate IsAsciiDigit(c: char) {
    '0' <= c <= '9'
  }

  /** `[A-Za-z0-9._%+-]` */
  predicate IsLocalChar(c: char) {
    IsAsciiLetter(c) || IsAsciiDigit(c) || c == '.' || c == '_' || c == '%' || c == '+' || c == '-'
  }

  /** `[A-Za-z0-9.-]` */
  predicate IsDomainChar(c: char) {
    IsAsciiLetter(c) || IsAsciiDigit(c) || c == '.' || c == '-'
  }

  /** The top-level-domain class: `[A-Za-z]` or `[A-Z|a-z]`. */
  datatype TldClass = Letters | LettersOrBar

  predicate IsTldChar(cls: TldClass, c: char) {
    IsAsciiLetter(c) || (cls == LettersOrBar && c == '|')
  }

  predicate LocalRange(s: string, lo: nat, hi: nat)
    requires lo <= hi <= |s|
  {
    forall k | lo <= k < hi :: IsLocalChar(s[k])
  }

  predicate DomainRange(s: string, lo: nat, hi: nat)
    requires lo <= hi <= |s|
  {
    forall k | lo <= k < hi :: IsDomainChar(s[k])
  }

  predicate TldRange(s: string, cls: TldClass, lo: nat, hi: nat)
    requires lo <= hi <= |s|
  {
    forall k | lo <= k < hi :: IsTldChar(cls, s[k])
  }

  /** `s` is local part `s[..at]`, '@', domain `s[at+1..dot]`, '.', and
      top-level domain `s[dot+1..]`, each part in its class and long enough. */
  predicate SplitsAt(s: string, cls: TldClass, at: nat, dot: nat) {
    && 0 < at && at + 1 < dot && dot + 2 < |s|
    && s[at] == '@' && s[dot] == '.'
    && LocalRange(s, 0, at)
    && DomainRange(s, at + 1, dot)
    && TldRange(s, cls, dot + 1, |s|)
  }

  /** The regular expression, matched against the whole string. */
  ghost predicate Matches(s: string, cls: TldClass) {
    exists at: nat, dot: nat :: SplitsAt(s, cls, at, dot)
  }

  /** The first index at or after `i` holding `c`, or `|s|`. */
  function FirstIndexOf(s: string, c: char, i: nat): (k: nat)
    requires i <= |s|
    decreases |s| - i
    ensures i <= k <= |s|
    ensures forall j | i <= j < k :: s[j] != c
    ensures k < |s| ==> s[k] == c
  {
    if i == |s| || s[i] == c then i else FirstIndexOf(s, c, i + 1)
  }

  /** The last index in `[lo, e)` holding `c`, if any. */
  function LastIndexOf(s: string, c: char, lo: nat, e: nat): (r: Option<nat>)
    requires lo <= e <= |s|
    decreases e
    ensures r.Some? ==> lo <= r.value < e && s[r.value] == c
    ensures r.Some? ==> forall j | r.value < j < e :: s[j] != c
    ensures r.None? ==> forall j | lo <= j < e :: s[j] != c
  {
    if e == lo then None
    else if s[e - 1] == c then Some(e - 1)
    else LastIndexOf(s, c, lo, e - 1)
  }

  /** Decides the regex: the '@' must be the first one (no class admits '@')
      and the separating '.' the last one (no top-level-domain character is '.'). */
  function IsValidEmail(s: string, cls: TldClass): (b: bool)
    ensures b <==> Matches(s, cls)
  {
    var at := FirstIndexOf(s, '@', 0);
    var b :=
      && 0 < at < |s|
      && LocalRange(s, 0, at)
      && match LastIndexOf(s, '.', at + 1, |s|)
         case None => false
         case Some(dot) =>
           at + 1 < dot && dot + 2 < |s| && DomainRange(s, at + 1, dot) && TldRange(s, cls, dot + 1, |s|);
    IsValidEmailCorrect(s, cls, at, b);
    b
  }

  lemma IsValidEmailCorrect(s: string, cls: TldClass, at: nat, b: bool)
    requires at == FirstIndexOf(s, '@', 0)
    requires b == (
      && 0 < at < |s|
      && LocalRange(s, 0, at)
      && match LastIndexOf(s, '.', at + 1, |s|)
         case None => false
         case Some(dot) =>
           at + 1 < dot && dot + 2 < |s| && DomainRange(s, at + 1, dot) && TldRange(s, cls, dot + 1, |s|))
    ensures b <==> Matches(s, cls)
  {
    if b {
      var dot := LastIndexOf(s, '.', at + 1, |s|).value;
      assert SplitsAt(s, cls, at, dot);
    }
    if Matches(s, cls) {
      var at': nat, dot': nat :| SplitsAt(s, cls, at', dot');
      assert !IsLocalChar('@');
      assert forall j | 0 <= j < at' :: s[j] != '@';
      assert at == at';
      var last := LastIndexOf(s, '.', at + 1, |s|);
      assert forall j | dot' < j < |s| :: s[j] != '.' by {
        assert forall j | dot' + 1 <= j < |s| :: IsTldChar(cls, s[j]);
      }
      assert last == Some(dot');
    }
  }

  /** Everything the view-model's pattern accepts, the screen's accepts too. */
  lemma StrictImpliesRelaxed(s: string)
    ensures IsValidEmail(s, Letters) ==> IsValidEmail(s, LettersOrBar)
  {
    if Matches(s, Letters) {
      var at: nat, dot: nat :| SplitsAt(s, Letters, at, dot);
      assert SplitsAt(s, LettersOrBar, at, dot);
    }
  }

  /** The two patterns disagree only on strings containing '|'. */
  lemma AgreeWithoutBar(s: string)
    requires '|' !in s
    ensures IsValidEmail(s, Letters) <==> IsValidEmail(s, LettersOrBar)
  {
    StrictImpliesRelaxed(s);
    if Matches(s, LettersOrBar) {
      var at: nat, dot: nat :| SplitsAt(s, LettersOrBar, at, dot);
      forall k | dot + 1 <= k < |s| ensures IsTldChar(Letters, s[k]) {
        assert s[k] in s;
      }
      assert SplitsAt(s, Letters, at, dot);
    }
  }

  /** The inclusion is strict: "a@b.c|" passes the screen's pattern only. */
  lemma BarSeparatesPatterns()
    ensures IsValidEmail("a@b.c|", LettersOrBar)
    ensures !IsValidEmail("a@b.c|", Letters)
  {
    var s := "a@b.c|";
    assert SplitsAt(s, LettersOrBar, 1, 3);
    assert !IsTldChar(Letters, s[5]);
    forall at: nat, dot: nat ensures !SplitsAt(s, Letters, at, dot) {
      if dot + 2 < |s| {
        assert dot + 1 <= 5 < |s|;
      }
    }
  }
}

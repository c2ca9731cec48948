/**
 Terminal dedupe keys (engine/src/codex_teardown.rs, `terminal_dedupe_key`) and the test that a
 stored status means "stopped" (`needs_terminal_reconciliation`).
 */
module TerminalKeys {
  import opened Wrappers

  /** The Unicode White_Space property, which `str::trim` strips. */
  predicate IsWhitespace(c: char) {
    || '\U{0009}' <= c <= '\U{000D}' || c == ' ' || c == '\U{0085}' || c == '\U{00A0}' || c == '\U{1680}'
    || '\U{2000}' <= c <= '\U{200A}' || c == '\U{2028}' || c == '\U{2029}' || c == '\U{202F}'
    || c == '\U{205F}' || c == '\U{3000}'
  }

  predicate IsBlank(text: string) {
    forall c | c in text :: IsWhitespace(c)
  }

  /** A missing run and a blank one are the same. */
  function Normal(run: Option<string>): Option<string> {
    if run.Some? && !IsBlank(run.value) then run else None
  }

  const PREFIX := "bridge:terminal:"

  function Key(session: string, run: Option<string>): string {
    match Normal(run)
    case Some(r) => PREFIX + session + ":" + r
    case None => PREFIX + session
  }

  /** The longer text is the shorter one, a colon, and the rest. */
  predicate Continues(longer: string, shorter: string) {
    |shorter| < |longer| && shorter <= longer && longer[|shorter|] == ':'
  }

  /** One text continues the other after a colon. */
  predicate SessionsClash(s: string, s': string) {
    Continues(s, s') || Continues(s', s)
  }

  function Suffix(run: Option<string>): (t: string)
    ensures t == "" || t[0] == ':'
  {
    if run.Some? then ":" + run.value else ""
  }

  lemma KeyParts(session: string, run: Option<string>)
    ensures Key(session, run) == PREFIX + (session + Suffix(Normal(run)))
    ensures Key(session, run)[|PREFIX|..] == session + Suffix(Normal(run))
  {
    assert session + "" == session;
    assert PREFIX + (session + Suffix(Normal(run))) == PREFIX + session + Suffix(Normal(run));
    var rest := session + Suffix(Normal(run));
    hide PREFIX;
    assert (PREFIX + rest)[|PREFIX|..] == rest;
  }

  /** Equal texts that end in something starting with a colon, or in nothing, split alike or clash. */
  lemma SplitsAlikeOrClash(a: string, x: string, b: string, y: string)
    requires x == "" || x[0] == ':'
    requires y == "" || y[0] == ':'
    requires a + x == b + y && !SessionsClash(a, b)
    ensures a == b && x == y
  {
    NotShorter(a, x, b, y);
    NotShorter(b, y, a, x);
    assert a == (a + x)[..|a|] && x == (a + x)[|a|..];
    assert b == (b + y)[..|a|] && y == (b + y)[|a|..];
  }

  lemma NotShorter(a: string, x: string, b: string, y: string)
    requires x == "" || x[0] == ':'
    requires a + x == b + y && !Continues(b, a)
    ensures |b| <= |a|
  {
    assert forall k | 0 <= k < |a| :: (a + x)[k] == a[k];
    assert forall k | 0 <= k < |b| :: (b + y)[k] == b[k];
    assert x != "" ==> (a + x)[|a|] == ':';
  }

  /** Between sessions that do not clash, and within one, the key determines session and run. */
  lemma KeysAreInjective(s: string, r: Option<string>, s': string, r': Option<string>)
    requires Key(s, r) == Key(s', r') && !SessionsClash(s, s')
    ensures s == s' && Normal(r) == Normal(r')
  {
    KeyParts(s, r);
    KeyParts(s', r');
    var x, y := Suffix(Normal(r)), Suffix(Normal(r'));
    hide Key, Normal, SessionsClash;
    SplitsAlikeOrClash(s, x, s', y);
    assert Normal(r).Some? ==> x[1..] == Normal(r).value;
    assert Normal(r').Some? ==> y[1..] == Normal(r').value;
  }

  lemma ClashCollides(s: string, s': string)
    requires Continues(s, s')
    ensures exists r: string, r': string :: Key(s, Some(r)) == Key(s', Some(r'))
  {
    var r' := s[|s'| + 1..] + ":r";
    assert s == s' + ":" + s[|s'| + 1..];
    assert 'r' in r' && 'r' in "r" by { assert r'[|r'| - 1] == 'r'; }
    assert !IsBlank(r') && !IsBlank("r") by { assert !IsWhitespace('r'); }
    assert PREFIX + s + ":" + "r" == PREFIX + s' + ":" + r';
    assert Key(s, Some("r")) == Key(s', Some(r'));
  }

  /** Two sessions share a key for some runs if and only if one continues the other after a colon. */
  lemma KeysCollideExactly(s: string, s': string)
    requires s != s'
    ensures SessionsClash(s, s')
       <==> exists r: Option<string>, r': Option<string> :: Key(s, r) == Key(s', r')
  {
    if Continues(s, s') {
      ClashCollides(s, s');
      var r: string, r': string :| Key(s, Some(r)) == Key(s', Some(r'));
      var x, y := Some(r), Some(r');
      assert Key(s, x) == Key(s', y);
    } else if Continues(s', s) {
      ClashCollides(s', s);
      var r: string, r': string :| Key(s', Some(r)) == Key(s, Some(r'));
      var x, y := Some(r'), Some(r);
      assert Key(s, x) == Key(s', y);
    } else {
      forall r: Option<string>, r': Option<string>
        ensures Key(s, r) != Key(s', r')
      {
        if Key(s, r) == Key(s', r') {
          KeysAreInjective(s, r, s', r');
        }
      }
    }
  }

  lemma LastColonFirst(a: string, x: string, b: string, y: string)
    requires a + ":" + x == b + ":" + y && ':' !in x
    ensures |a| >= |b|
  {
    assert forall k | 0 <= k < |x| :: (a + ":" + x)[|a| + 1 + k] == x[k];
    assert (b + ":" + y)[|b|] == ':';
  }

  /** Whatever the sessions, runs without a colon that are not blank keep their keys apart. */
  lemma ColonFreeRunsAreInjective(s: string, r: string, s': string, r': string)
    requires ':' !in r && ':' !in r' && !IsBlank(r) && !IsBlank(r')
    requires Key(s, Some(r)) == Key(s', Some(r'))
    ensures s == s' && r == r'
  {
    KeyParts(s, Some(r));
    KeyParts(s', Some(r'));
    assert Suffix(Normal(Some(r))) == ":" + r && Suffix(Normal(Some(r'))) == ":" + r';
    assert s + ":" + r == s + (":" + r) && s' + ":" + r' == s' + (":" + r');
    hide Key, Normal, Suffix, IsBlank;
    ColonSplit(s, r, s', r');
  }

  lemma ColonSplit(s: string, r: string, s': string, r': string)
    requires ':' !in r && ':' !in r' && s + ":" + r == s' + ":" + r'
    ensures s == s' && r == r'
  {
    LastColonFirst(s, r, s', r');
    LastColonFirst(s', r', s, r);
    assert s == (s + ":" + r)[..|s|] && s' == (s' + ":" + r')[..|s|];
    assert r == (s + ":" + r)[|s| + 1..] && r' == (s' + ":" + r')[|s| + 1..];
  }

  // ---------------------------------------------------------------------------------------------
  // Accepted ids
  // ---------------------------------------------------------------------------------------------

  predicate IsHex(c: char) {
    '0' <= c <= '9' || 'a' <= c <= 'f' || 'A' <= c <= 'F'
  }

  predicate IsHyphenated(t: string) {
    && |t| == 36
    && forall i | 0 <= i < 36 :: if i == 8 || i == 13 || i == 18 || i == 23 then t[i] == '-' else IsHex(t[i])
  }

  /** The four spellings of a UUID that launching accepts: plain, hyphenated, braced, and as a URN. */
  predicate IsUuidText(t: string) {
    || (|t| == 32 && forall i | 0 <= i < 32 :: IsHex(t[i]))
    || IsHyphenated(t)
    || (|t| == 38 && t[0] == '{' && t[37] == '}' && IsHyphenated(t[1..37]))
    || (|t| == 45 && t[..9] == "urn:uuid:" && IsHyphenated(t[9..]))
  }

  predicate AllHex(t: string) {
    forall c | c in t :: IsHex(c)
  }

  /** 32 digits in groups of 8, 4, 4, 4 and 12. */
  function Hyphenate(hex: string): string
    requires |hex| == 32
  {
    hex[..8] + "-" + hex[8..12] + "-" + hex[12..16] + "-" + hex[16..20] + "-" + hex[20..]
  }

  lemma HyphenatedAt(hex: string)
    requires |hex| == 32
    ensures |Hyphenate(hex)| == 36
    ensures forall i | 0 <= i < 36 :: Hyphenate(hex)[i] ==
              if i == 8 || i == 13 || i == 18 || i == 23 then '-'
              else hex[if i < 8 then i else if i < 13 then i - 1 else if i < 18 then i - 2 else if i < 23 then i - 3 else i - 4]
  {
  }

  lemma HyphenateIsHyphenated(hex: string)
    requires |hex| == 32 && AllHex(hex)
    ensures IsHyphenated(Hyphenate(hex))
  {
    HyphenatedAt(hex);
    hide Hyphenate, IsHex;
  }

  lemma HyphenatedIsHyphenate(t: string) returns (hex: string)
    requires IsHyphenated(t)
    ensures |hex| == 32 && AllHex(hex) && t == Hyphenate(hex)
  {
    hex := t[..8] + t[9..13] + t[14..18] + t[19..23] + t[24..];
    hide IsHex;
    assert forall i | 0 <= i < 32 ::
      hex[i] == t[if i < 8 then i else if i < 12 then i + 1 else if i < 16 then i + 2 else if i < 20 then i + 3 else i + 4];
    HyphenatedAt(hex);
    hide Hyphenate;
    assert t == Hyphenate(hex);
  }

  /** One of the spellings of these digits. */
  predicate Spells(t: string, hex: string) {
    && |hex| == 32 && AllHex(hex)
    && t in {hex, Hyphenate(hex), "{" + Hyphenate(hex) + "}", "urn:uuid:" + Hyphenate(hex)}
  }

  /** The texts accepted are 32 hexadecimal digits, or those digits hyphenated, bare, braced or in a URN. */
  lemma UuidTextsExactly(t: string)
    ensures IsUuidText(t) <==>
      exists hex: string :: Spells(t, hex)
  {
    if IsUuidText(t) {
      UuidTextIsSpelled(t);
    }
    if hex: string :| Spells(t, hex) {
      SpellingIsUuidText(hex, t);
    }
  }

  lemma UuidTextIsSpelled(t: string)
    requires IsUuidText(t)
    ensures exists hex: string :: Spells(t, hex)
  {
    if |t| == 32 {
      assert AllHex(t) by { hide IsHex; }
      assert Spells(t, t);
    } else if |t| == 36 {
      var hex := HyphenatedIsHyphenate(t);
      assert Spells(t, hex);
    } else if |t| == 38 {
      var hex := HyphenatedIsHyphenate(t[1..37]);
      assert t == "{" + t[1..37] + "}";
      assert Spells(t, hex);
    } else {
      var hex := HyphenatedIsHyphenate(t[9..]);
      assert t == "urn:uuid:" + t[9..];
      assert Spells(t, hex);
    }
  }

  lemma SpellingIsUuidText(hex: string, t: string)
    requires Spells(t, hex)
    ensures IsUuidText(t)
  {
    HyphenateIsHyphenated(hex);
    var h := Hyphenate(hex);
    hide IsHex, IsHyphenated, Hyphenate;
    if t == hex {
      assert forall i | 0 <= i < 32 :: t[i] in t;
    } else if t == "{" + h + "}" {
      HyphenatedLength(h);
      assert t[1..37] == h;
    } else if t == "urn:uuid:" + h {
      HyphenatedLength(h);
      assert t[9..] == h && t[..9] == "urn:uuid:";
    }
  }

  lemma HyphenatedLength(t: string)
    requires IsHyphenated(t)
    ensures |t| == 36
  {
  }

  lemma ColonsOfUuid(t: string)
    requires IsUuidText(t)
    ensures forall i | 0 <= i < |t| && t[i] == ':' :: i == 3 || i == 8
  {
    if |t| == 38 {
      assert forall i | 0 < i < 37 :: t[i] == t[1..37][i - 1];
    } else if |t| == 45 {
      assert forall i | 0 <= i < 9 :: t[i] == "urn:uuid:"[i];
      assert forall i | 9 <= i < 45 :: t[i] == t[9..][i - 9];
    }
  }

  /** Accepted session ids never clash, URNs with their colons included. */
  lemma UuidsNeverClash(s: string, s': string)
    requires IsUuidText(s) && IsUuidText(s')
    ensures !SessionsClash(s, s')
  {
    UuidIsNoPrefix(s, s');
    UuidIsNoPrefix(s', s);
  }

  lemma UuidIsNoPrefix(s: string, s': string)
    requires IsUuidText(s) && IsUuidText(s')
    ensures !Continues(s', s)
  {
    ColonsOfUuid(s');
  }

  // ---------------------------------------------------------------------------------------------
  // Status text
  // ---------------------------------------------------------------------------------------------

  function TrimStart(text: string): string {
    if text != "" && IsWhitespace(text[0]) then TrimStart(text[1..]) else text
  }

  function TrimEnd(text: string): string {
    if text != "" && IsWhitespace(text[|text| - 1]) then TrimEnd(text[..|text| - 1]) else text
  }

  function AsciiLower(c: char): char {
    if 'A' <= c <= 'Z' then ((c as int) + 32) as char else c
  }

  predicate SameIgnoringCase(a: string, b: string) {
    |a| == |b| && forall i | 0 <= i < |a| :: AsciiLower(a[i]) == AsciiLower(b[i])
  }

  predicate IsStopped(status: string) {
    SameIgnoringCase(TrimEnd(TrimStart(status)), "stopped")
  }

  lemma {:induction false} TrimStartMeaning(text: string)
    ensures var rest := TrimStart(text);
      && |rest| <= |text| && IsBlank(text[..|text| - |rest|]) && rest == text[|text| - |rest|..]
      && (rest != "" ==> !IsWhitespace(rest[0]))
  {
    hide IsWhitespace;
    if text != "" && IsWhitespace(text[0]) {
      TrimStartMeaning(text[1..]);
      var n := |text| - |TrimStart(text)|;
      assert text[..n] == [text[0]] + text[1..][..n - 1];
    }
  }

  lemma {:induction false} TrimEndMeaning(text: string)
    ensures var rest := TrimEnd(text);
      && |rest| <= |text| && rest == text[..|rest|] && IsBlank(text[|rest|..])
      && (rest != "" ==> !IsWhitespace(rest[|rest| - 1]))
  {
    hide IsWhitespace;
    if text != "" && IsWhitespace(text[|text| - 1]) {
      var front := text[..|text| - 1];
      TrimEndMeaning(front);
      var n := |TrimEnd(front)|;
      assert text[n..] == front[n..] + [text[|text| - 1]];
    }
  }

  lemma {:induction false} TrimsBefore(blank: string, text: string)
    requires IsBlank(blank) && text != "" && !IsWhitespace(text[0])
    ensures TrimStart(blank + text) == text
  {
    hide IsWhitespace;
    if blank == "" {
      assert blank + text == text;
    } else {
      assert blank[0] in blank;
      assert (blank + text)[1..] == blank[1..] + text;
      TrimsBefore(blank[1..], text);
    }
  }

  lemma {:induction false} TrimsAfter(text: string, blank: string)
    requires IsBlank(blank) && text != "" && !IsWhitespace(text[|text| - 1])
    ensures TrimEnd(text + blank) == text
  {
    hide IsWhitespace;
    if blank == "" {
      assert text + blank == text;
    } else {
      var n := |blank| - 1;
      assert blank[n] in blank;
      assert (text + blank)[..|text + blank| - 1] == text + blank[..n];
      TrimsAfter(text, blank[..n]);
    }
  }

  /** The letters of "stopped", in either case. */
  lemma NoBlankInStopped(word: string)
    requires SameIgnoringCase(word, "stopped")
    ensures |word| == 7 && !IsWhitespace(word[0]) && !IsWhitespace(word[6])
  {
    assert AsciiLower(word[0]) == 's' && AsciiLower(word[6]) == 'd';
  }

  /** The status is this word, in any case, between white space or none. */
  predicate ReadsStopped(status: string, before: string, word: string, after: string) {
    status == before + (word + after) && IsBlank(before) && IsBlank(after) && SameIgnoringCase(word, "stopped")
  }

  lemma StoppedIsTrimmed(status: string)
    requires IsStopped(status)
    ensures exists before: string, word: string, after: string :: ReadsStopped(status, before, word, after)
  {
    var rest := TrimStart(status);
    var word := TrimEnd(rest);
    TrimStartMeaning(status);
    TrimEndMeaning(rest);
    hide TrimStart, TrimEnd, IsBlank, SameIgnoringCase, IsWhitespace;
    var before, after := status[..|status| - |rest|], rest[|word|..];
    assert rest == word + after && status == before + rest;
    assert ReadsStopped(status, before, word, after);
  }

  lemma TrimmedIsStopped(before: string, word: string, after: string)
    requires IsBlank(before) && IsBlank(after) && SameIgnoringCase(word, "stopped")
    ensures IsStopped(before + (word + after))
  {
    NoBlankInStopped(word);
    hide IsBlank, SameIgnoringCase, IsWhitespace;
    TrimsBefore(before, word + after);
    TrimsAfter(word, after);
  }

  /** A status means "stopped" exactly if it is that word in any case, with white space around it or none. */
  lemma StoppedExactly(status: string)
    ensures IsStopped(status) <==>
      exists before: string, word: string, after: string :: ReadsStopped(status, before, word, after)
  {
    if IsStopped(status) {
      StoppedIsTrimmed(status);
    }
    if before: string, word: string, after: string :| ReadsStopped(status, before, word, after) {
      hide IsStopped;
      TrimmedIsStopped(before, word, after);
    }
  }

  /** A run's key names its session, and the run unless that is all white space. */
  lemma KeyText(session: string, run: string)
    ensures Key(session, None) == "bridge:terminal:" + session
    ensures Key(session, Some(run)) ==
            if forall c | c in run :: IsWhitespace(c) then "bridge:terminal:" + session
            else "bridge:terminal:" + session + ":" + run
  {
    hide IsWhitespace;
  }
}
